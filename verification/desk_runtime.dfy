// The controller object among its tasks: every method is one move of DeskWorld carried out on the object,
// so what is proved of all interleavings holds of it.
module DeskRuntimes {
  import opened Policy
  import opened HeightMonitors
  import opened DeskModel
  import opened DeskWorld
  import opened DeskRecord
  import opened DeskWire
  import opened DeskPulses
  import opened DeskTargets
  import opened DeskIntents
  import opened DeskHalts
  import opened DeskAdmission
  import opened DeskControllers

  lemma RunAppend(c: Settings, generation: nat, first: Env, moves: seq<Label>, move: Label)
    ensures Run(c, generation, first, moves + [move]) == Step(c, Run(c, generation, first, moves), move)
  {
    hide Step;
    assert (moves + [move])[..|moves|] == moves;
  }

  class DeskRuntime {
    const desk: DeskController
    var lock: RelayLock
    var runner: Runner
    var request: Request
    var stopper: Stopper
    var shutdown: Shutdown
    var now: int
    var trace: seq<Entry>
    // Every move since start(), which found `first`.
    ghost const first: Env
    ghost var moves: seq<Label>

    ghost function Now(): World
      reads this, desk
    {
      World(desk.View(), lock, runner, request, stopper, shutdown, now, trace)
    }

    ghost predicate Valid()
      reads this, desk
    {
      ValidSettings(desk.c) && Now() == Run(desk.c, 0, first, moves)
    }

    /** start() up to its first await. */
    constructor (c: Settings, env: Env)
      requires ValidSettings(c)
      ensures Valid() && desk.c == c && moves == [] && first == env
    {
      var d := new DeskController(c);
      var _ := d.Start(false, true);
      desk := d;
      lock, runner, request, shutdown, now, trace := Free, Waiting, NoRequest, Alive, env.mono, [];
      stopper := Stopping(ByStart, env.relay.receivedAt, false);
      first, moves := env, [];
    }

    ghost method Log(was: World, move: Label)
      requires ValidSettings(desk.c) && was == Run(desk.c, 0, first, moves) && Now() == Step(desk.c, was, move)
      modifies this`moves
      ensures Valid() && moves == old(moves) + [move]
    {
      hide Step, ValidSettings;
      RunAppend(desk.c, 0, first, moves, move);
      moves := moves + [move];
    }

    /** What every run keeps holds now. */
    lemma Keeps()
      requires Valid()
      ensures desk.Valid() && WorldOk(desk.c, Now())
    {
      hide Run;
      RecordHolds(desk.c, 0, first, moves);
    }

    // ---- The runner

    method Turn(before: Control, act: Act, env: Env, ghost was: World)
      requires Now() == was.(desk := desk.View()) && before == was.desk.control
      modifies this`runner, this`now, this`trace
      ensures Now() == RunnerActs(was, desk.View(), act, env)
    {
      now := env.mono;
      if before.awaiting && !desk.control.awaiting && desk.control.mode != NoMotion {
        trace := trace + [Activated(before.generation, env)];
      }
      match act
      case Rest =>
      case Stop(blamed) => runner := MustStop(false, blamed);
      case Publish(pulse) => runner := Sending(PulseMessage(pulse));
      case SendStop => runner := Sending(StopMessage);
      case Lock => runner := WantsIntentLock;
      case Nudge(order) =>
        trace := trace + [Installed(desk.control, Startup)];
        runner := Sending(WakeMessage(order));
    }

    method RunCycle(env: Env)
      requires Valid()
      modifies this, desk
      ensures Valid() && moves == old(moves) + [Label.RunCycle(env)]
    {
      hide Cycle, Run, WorldOk, RecordOk, ValidSettings, RunnerActs, Consistent, Justified, Carries;
      ghost var was := Now();
      Keeps();
      if shutdown != Over && runner == Waiting && now <= env.mono && Fits(env) {
        var before := desk.control;
        var act := desk.RunCycle(env);
        Turn(before, act, env, was);
      }
      Log(was, Label.RunCycle(env));
    }

    /** The height monitor is in a state its object produces. */
    function Fits(env: Env): bool {
      Consistent(env.monitor)
    }

    method TakeIntentLock(env: Env)
      requires Valid()
      modifies this, desk
      ensures Valid() && moves == old(moves) + [Label.TakeIntentLock(env)]
    {
      hide StartupCycle, Run, WorldOk, RecordOk, ValidSettings, RunnerActs, Consistent;
      ghost var was := Now();
      Keeps();
      if shutdown != Over && runner == WantsIntentLock && IntentLockIsFree() && now <= env.mono && Fits(env) {
        var before := desk.control;
        runner := Waiting;
        var act := desk.RunStartupWakeCycle(env);
        Turn(before, act, env, was.(runner := Waiting));
      }
      Log(was, Label.TakeIntentLock(env));
    }

    function IntentLockIsFree(): (r: bool)
      reads this, desk
      ensures r == IntentLockFree(Now())
    {
      request == NoRequest && !(runner.Sending? && runner.message.WakeMessage?)
    }

    /** A stop task runs its first section. */
    method StopTask(blamed: bool, env: Env) returns (begun: bool)
      requires desk.Valid()
      modifies this`now, this`stopper, desk
      ensures Now() == DeskWorld.StopTask(old(Now()), blamed, env) && begun == StopBegins(old(desk.View()), env).1
    {
      now := env.mono;
      var refused;
      begun, refused := desk.BeginStop(false, env);
      if begun { stopper := Stopping(ByTask(blamed), env.relay.receivedAt, false); }
    }

    method RunnerStops(env: Env)
      requires Valid()
      modifies this, desk
      ensures Valid() && moves == old(moves) + [Label.RunnerStops(env)]
    {
      hide Run, WorldOk, RecordOk, ValidSettings, StopBegins, Consistent;
      ghost var was := Now();
      Keeps();
      if shutdown != Over && runner.MustStop? && now <= env.mono && Fits(env) {
        var last := runner.last;
        var _ := StopTask(runner.blamed, env);
        runner := if last then Dead else Waiting;
      }
      Log(was, Label.RunnerStops(env));
    }

    method RequestStops(env: Env)
      requires Valid()
      modifies this, desk
      ensures Valid() && moves == old(moves) + [Label.RequestStops(env)]
    {
      hide Run, WorldOk, RecordOk, ValidSettings, StopBegins, Consistent;
      ghost var was := Now();
      Keeps();
      if shutdown != Over && request.Halting? && now <= env.mono && Fits(env) {
        var begun := StopTask(request.blamed, env);
        request := if begun then Halted else NoRequest;
      }
      Log(was, Label.RequestStops(env));
    }

    method RunnerFails()
      requires Valid()
      modifies this
      ensures Valid() && moves == old(moves) + [Label.RunnerFails]
    {
      hide Run, ValidSettings;
      ghost var was := Now();
      if shutdown != Over && runner != Dead {
        Unlock(TheRunner);
        runner := if desk.closing then Dead else MustStop(true, true);
      }
      Log(was, Label.RunnerFails);
    }

    method Unlock(client: Client)
      modifies this`lock
      ensures Now() == DeskWorld.Unlock(old(Now()), client)
    {
      if lock.Held? && lock.client == client { lock := Free; }
    }

    // ---- Requests

    method Settle(next: Next, goal: Goal, origin: Origin, live: Option<nat>, generation: nat, env: Env, ghost was: World)
      requires Now() == was.(desk := desk.View(), trace := trace, request := request)
      requires trace == was.trace && live == LiveIntent(was.desk) && generation == was.desk.control.generation
      modifies this`request, this`stopper, this`now, this`trace
      ensures Now() == RequestActs(was, desk.View(), next, goal, origin, env)
    {
      now := env.mono;
      request := NoRequest;
      if desk.lastHoldAt == Some(env.mono) { trace := trace + [HoldAt(env.mono)]; }
      match next
      case Return =>
      case Refuse =>
      case Reached => request := Halting(false);
      case Halt =>
        request := Halting(false);
        trace := trace + [Invalid(generation)];
      case HandOver =>
        request := HandingOver(goal, live, |trace|);
        trace := trace + [Replacing(live, env.relay)];
        stopper := Stopping(ByRequest, env.relay.receivedAt, false);
      case SendWake(order) =>
        trace := trace + [Installed(desk.control, origin)];
        request := Ordering(order);
      case Go => trace := trace + [Installed(desk.control, origin)];
    }

    function Live(): (r: Option<nat>)
      reads desk
      ensures r == LiveIntent(desk.View())
    {
      if desk.control.mode == NoMotion then None else Some(desk.control.generation)
    }

    method AskTarget(target: real, env: Env)
      requires desk.Valid() && Consistent(env.monitor)
      modifies this`request, this`stopper, this`now, this`trace, desk
      ensures Now() == AsksTarget(desk.c, old(Now()), target, env)
    {
      hide TargetEnters, RequestActs, RecordOk, Admitted;
      ghost var was := Now();
      var live, generation := Live(), desk.control.generation;
      if desk.c.opMin <= target <= desk.c.opMax { trace := trace + [Asked(generation)]; }
      ghost var asked := was.(trace := trace);
      var next := desk.SetTarget(target, env);
      Settle(next, ToTarget(target), Direct(live), live, generation, env, asked);
    }

    method SetTarget(target: real, env: Env)
      requires Valid()
      modifies this, desk
      ensures Valid() && moves == old(moves) + [Label.SetTarget(target, env)]
    {
      hide Run, WorldOk, RecordOk, ValidSettings, AsksTarget, Consistent;
      ghost var was := Now();
      Keeps();
      if shutdown != Over && IntentLockIsFree() && now <= env.mono && Fits(env) { AskTarget(target, env); }
      Log(was, Label.SetTarget(target, env));
    }

    method AdjustTarget(amount: real, increase: bool, env: Env)
      requires Valid()
      modifies this, desk
      ensures Valid() && moves == old(moves) + [Label.AdjustTarget(amount, increase, env)]
    {
      hide Run, WorldOk, RecordOk, ValidSettings, AsksTarget, Consistent;
      ghost var was := Now();
      Keeps();
      if shutdown != Over && IntentLockIsFree() && now <= env.mono && Fits(env) {
        if amount <= 0.0 {
          now := env.mono;
          if desk.control.mode != NoMotion {
            request := Halting(false);
            trace := trace + [Invalid(desk.control.generation)];
          }
        } else {
          PendingKeeps(desk.c, desk.View());
          desk.CancelStartupWake();
          trace := trace + [Asked(desk.control.generation)];
          if desk.control.mode == Target && desk.control.target.Some? {
            AskTarget(desk.control.target.value + if increase then amount else -amount, env);
          }
        }
      }
      Log(was, Label.AdjustTarget(amount, increase, env));
    }

    method Hold(way: Way, env: Env)
      requires Valid()
      modifies this, desk
      ensures Valid() && moves == old(moves) + [Label.Hold(way, env)]
    {
      hide Run, WorldOk, RecordOk, ValidSettings, HoldEnters, RequestActs, Admitted, Consistent;
      ghost var was := Now();
      Keeps();
      if shutdown != Over && IntentLockIsFree() && now <= env.mono && Fits(env) {
        var live, generation := Live(), desk.control.generation;
        if desk.running && !desk.closing && !desk.stopInProgress { trace := trace + [Asked(generation)]; }
        ghost var asked := was.(trace := trace);
        var next := desk.Hold(way, env);
        Settle(next, ToHold(way), Direct(live), live, generation, env, asked);
      }
      Log(was, Label.Hold(way, env));
    }

    method StopMotion(env: Env)
      requires Valid()
      modifies this
      ensures Valid() && moves == old(moves) + [Label.StopMotion(env)]
    {
      hide Run, ValidSettings, Consistent;
      ghost var was := Now();
      if shutdown != Over && IntentLockIsFree() && now <= env.mono && Fits(env) {
        now := env.mono;
        request := Halting(false);
      }
      Log(was, Label.StopMotion(env));
    }

    method RequestFails()
      requires Valid()
      modifies this
      ensures Valid() && moves == old(moves) + [Label.RequestFails]
    {
      hide Run, ValidSettings;
      ghost var was := Now();
      if shutdown != Over {
        if request.Ordering? {
          Unlock(TheRequest);
          request := NoRequest;
        } else if stopper.Stopping? && stopper.owner == ByRequest {
          Unlock(TheStopper);
          request, stopper := NoRequest, NoStop;
        }
      }
      Log(was, Label.RequestFails);
    }

    method StopTaskFails()
      requires Valid()
      modifies this
      ensures Valid() && moves == old(moves) + [Label.StopTaskFails]
    {
      hide Run, ValidSettings;
      ghost var was := Now();
      if shutdown != Over && stopper.Stopping? && stopper.owner.ByTask? {
        Unlock(TheStopper);
        stopper := NoStop;
        if request == Halted { request := NoRequest; }
      }
      Log(was, Label.StopTaskFails);
    }

    method StartFails()
      requires Valid()
      modifies this
      ensures Valid() && moves == old(moves) + [Label.StartFails]
    {
      hide Run, ValidSettings;
      ghost var was := Now();
      if shutdown != Over && stopper.Stopping? && stopper.owner == ByStart {
        Unlock(TheStopper);
        stopper := NoStop;
      }
      Log(was, Label.StartFails);
    }

    // ---- The end of a STOP

    method FinishStop(failed: bool, env: Env)
      requires desk.Valid() && WorldOk(desk.c, Now()) && stopper.Stopping? && shutdown != Over && Consistent(env.monitor)
      modifies this`request, this`stopper, this`now, this`trace, desk
      ensures Now() == StopFinishes(desk.c, old(Now()), failed, env)
    {
      assert !desk.control.awaiting;
      hide RequestProceeds, RecordOk, StartEnds;
      ghost var was := Now();
      var owner := stopper.owner;
      stopper, now := NoStop, env.mono;
      match owner
      case ByStart =>
        desk.FinishStart(failed, env);
        trace := trace + [Registered];
      case ByTask(blamed) =>
        desk.FinishStop(failed || blamed);
        if request == Halted { request := NoRequest; }
      case ByRequest =>
        desk.FinishStop(failed);
        if failed || !request.HandingOver? { request := NoRequest; } else { Proceed(env); }
    }

    method Proceed(env: Env)
      requires desk.Valid() && request.HandingOver? && desk.startupWakePending == None && Consistent(env.monitor)
      requires !desk.control.awaiting
      requires request.goal.ToTarget? ==> desk.c.opMin <= request.goal.target <= desk.c.opMax
      modifies this`request, this`stopper, this`now, this`trace, desk
      ensures Now() == RequestProceeds(desk.c, old(Now()), env)
    {
      hide TargetProceeds, HoldProceeds, RequestActs, RecordOk, Admitted;
      ghost var was := Now();
      var live, generation := Live(), desk.control.generation;
      var origin := After(request.replaced, request.since);
      var goal := request.goal;
      match goal
      case ToTarget(target) =>
        var next := desk.ProceedTarget(target, env);
        Settle(next, goal, origin, live, generation, env, was);
      case ToHold(way) =>
        var next := desk.ProceedHold(way, env);
        Settle(next, goal, origin, live, generation, env, was);
    }

    method Confirm(env: Env)
      requires Valid()
      modifies this, desk
      ensures Valid() && moves == old(moves) + [Label.Confirm(env)]
    {
      hide Run, RecordOk, PulseOk, LockOk, ValidSettings, StopFinishes, Consistent;
      ghost var was := Now();
      Keeps();
      if shutdown != Over && stopper.Stopping? && stopper.confirming && now <= env.mono && Fits(env)
         && FreshStop(stopper.baseline, env.relay) {
        EntryKeeps(desk.c, was, Confirmed(stopper.baseline, env.relay));
        trace := trace + [Confirmed(stopper.baseline, env.relay)];
        FinishStop(false, env);
      }
      Log(was, Label.Confirm(env));
    }

    method GiveUp(env: Env)
      requires Valid()
      modifies this, desk
      ensures Valid() && moves == old(moves) + [Label.GiveUp(env)]
    {
      hide Run, RecordOk, PulseOk, LockOk, ValidSettings, StopFinishes, Consistent;
      ghost var was := Now();
      Keeps();
      if shutdown != Over && stopper.Stopping? && stopper.confirming && now <= env.mono && Fits(env) {
        FinishStop(true, env);
      }
      Log(was, Label.GiveUp(env));
    }

    // ---- The relay lock

    method Acquire(client: Client)
      requires Valid()
      modifies this
      ensures Valid() && moves == old(moves) + [Label.Acquire(client)]
    {
      hide Run, ValidSettings, StillWanted;
      ghost var was := Now();
      if shutdown != Over && lock == Free {
        match client
        case TheRunner =>
          if runner.Sending? {
            var wanted := true;
            if runner.message.PulseMessage? { wanted := desk.PulseIsWanted(runner.message.pulse); }
            if wanted { lock := Held(TheRunner, runner.message, false); } else { runner := Waiting; }
          }
        case TheRequest => if request.Ordering? { lock := Held(TheRequest, WakeMessage(request.order), false); }
        case TheStopper =>
          if stopper.Stopping? && !stopper.confirming { lock := Held(TheStopper, StopMessage, false); }
        case TheShutdown => if shutdown == Closing { lock := Held(TheShutdown, StopMessage, false); }
      }
      Log(was, Label.Acquire(client));
    }

    method Wire()
      requires Valid()
      modifies this
      ensures Valid() && moves == old(moves) + [Label.Wire]
    {
      hide Run, ValidSettings;
      ghost var was := Now();
      if shutdown != Over && lock.Held? && !lock.sent {
        trace := trace + [Sent(lock.message, desk.control.generation, lock.client)];
        lock := lock.(sent := true);
      }
      Log(was, Label.Wire);
    }

    method RunnerReturns(message: Message, ok: bool, env: Env)
      requires desk.Valid() && (message.PulseMessage? ==> Carries(desk.View(), message.pulse))
      modifies this`runner, this`now, desk
      ensures Now() == DeskWorld.RunnerReturns(desk.c, old(Now()), message, ok, env)
    {
      hide RecordOk, Carries;
      now, runner := env.mono, Waiting;
      match message
      case PulseMessage(p) =>
        if p.generation != desk.control.generation { return; }
        if !ok { runner := MustStop(false, true); } else { desk.RecordPulse(p, env.mono); }
      case StopMessage =>
        if !ok { runner := MustStop(false, true); } else { desk.FinishSettling(env.mono); }
      case WakeMessage(order) =>
        if !ok && order.generation == desk.control.generation { runner := MustStop(false, true); }
    }

    method Release(ok: bool, env: Env)
      requires Valid()
      modifies this, desk
      ensures Valid() && moves == old(moves) + [Label.Release(ok, env)]
    {
      hide Run, ValidSettings, Consistent;
      ghost var was := Now();
      Keeps();
      if shutdown != Over && now <= env.mono && Fits(env) && lock.Held? && (ok ==> lock.sent) { Let(ok, env); }
      Log(was, Label.Release(ok, env));
    }

    method Let(ok: bool, env: Env)
      requires desk.Valid() && WorldOk(desk.c, Now()) && shutdown != Over && Consistent(env.monitor)
      requires lock.Held? && (ok ==> lock.sent)
      modifies this, desk
      ensures Now() == Releases(desk.c, old(Now()), ok, env) && moves == old(moves)
    {
      hide RecordOk, StopFinishes, DeskWorld.RunnerReturns;
      ghost var was := Now();
      var client, message := lock.client, lock.message;
      FreeKeeps(desk.c, was, env);
      lock, now := Free, env.mono;
      if ok { trace := trace + [Published(client)]; }
      match client
      case TheRunner => RunnerReturns(message, ok, env);
      case TheRequest =>
        request := if !ok && request.order.generation == desk.control.generation then Halting(true) else NoRequest;
      case TheStopper => if ok { stopper := stopper.(confirming := true); } else { FinishStop(true, env); }
      case TheShutdown => shutdown := Closed(ok);
    }

    // ---- Shutdown

    method BeginShutdown()
      requires Valid()
      modifies this, desk
      ensures Valid() && moves == old(moves) + [Label.BeginShutdown]
    {
      hide Run, WorldOk, RecordOk, ValidSettings;
      ghost var was := Now();
      Keeps();
      if shutdown == Alive {
        var _ := desk.BeginClosing(true);
        shutdown := Closing;
      }
      Log(was, Label.BeginShutdown);
    }

    method EndShutdown()
      requires Valid()
      modifies this, desk
      ensures Valid() && moves == old(moves) + [Label.EndShutdown]
    {
      hide Run, RecordOk, ValidSettings;
      ghost var was := Now();
      Keeps();
      if shutdown.Closed? {
        Unlock(TheRunner);
        desk.FinishClosing(!shutdown.ok);
        runner, shutdown := Dead, Over;
      }
      Log(was, Label.EndShutdown);
    }

    // ---- What holds of the object

    /** The trace of the object, at any moment. */
    lemma TraceIsSafe()
      requires Valid()
      ensures StampsRise(trace) && JustifiedWire(desk.c, trace)
      ensures TargetsBounded(desk.c, trace) && FineHeightsRise(trace)
      ensures HandOversConfirmed(trace) && OnlyWakesReplaceDirectly(trace) && FineFollowsFine(trace)
      ensures WakesDiffer(trace) && PulsesFounded(desk.c, trace) && StartupWakesRare(trace)
      ensures Heeded(Now())
    {
      hide Run, StampsRise, JustifiedWire, TargetsBounded, FineHeightsRise, HandOversConfirmed, WakesDiffer,
        OnlyWakesReplaceDirectly, FineFollowsFine, StartupWakesRare, PulsesFounded, Heeded, ValidSettings;
      StopDominates(desk.c, 0, first, moves);
      EveryPulseIsJustified(desk.c, 0, first, moves);
      TargetRunIsBounded(desk.c, 0, first, moves);
      FinePulsesUseNewHeights(desk.c, 0, first, moves);
      HandOverIsConfirmed(desk.c, 0, first, moves);
      DirectReplacementOnlyWakes(desk.c, 0, first, moves);
      ContinuousIsNotReentered(desk.c, 0, first, moves);
      WakeIsSentOnce(desk.c, 0, first, moves);
      StartupWakeIsRare(desk.c, 0, first, moves);
      PulseWaitsForSensor(desk.c, 0, first, moves);
      InvalidReplacementStops(desk.c, 0, first, moves);
    }
  }

  lemma EntryKeeps(c: Settings, w: World, e: Entry)
    requires WorldOk(c, w)
    ensures WorldOk(c, w.(trace := w.trace + [e]))
  {
  }

  lemma FreeKeeps(c: Settings, w: World, env: Env)
    requires WorldOk(c, w)
    ensures WorldOk(c, w.(lock := Free, now := env.mono))
  {
  }
}
