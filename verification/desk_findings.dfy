// Where the controller stops short of what its design asks for: the exact condition where there is one,
// and a concrete case of each.
module DeskFindings {
  import opened Policy
  import opened HeightMonitors
  import opened DeskModel
  import opened DeskWorld
  import opened DeskRecord

  // ---- A STOP that is cancelled

  /** The STOP flag is up and nobody is left to lower it. */
  predicate Lost(w: World) {
    w.desk.stopping && w.stopper == NoStop
  }

  /** The move cancels whoever sends or confirms a STOP: a hand-over, a stop task or start(). */
  predicate CancelsStop(w: World, move: Label) {
    w.stopper.Stopping? &&
    match w.stopper.owner
    case ByRequest => move == RequestFails
    case ByTask(_) => move == StopTaskFails
    case ByStart => move == StartFails
  }

  predicate CancelsAt(c: Settings, generation: nat, first: Env, labels: seq<Label>, i: nat)
    requires i < |labels|
  {
    CancelsStop(Run(c, generation, first, labels[..i]), labels[i])
  }

  lemma StepLoses(c: Settings, w: World, move: Label)
    requires WorldOk(c, w) && Step(c, w, move).shutdown == Alive
    ensures w.shutdown == Alive
    ensures Lost(Step(c, w, move)) <==> Lost(w) || CancelsStop(w, move)
  {
    hide RunnerCycles, RunnerLocks, StopTask, RequestStopTask, AsksTarget, AdjustsTarget, AsksHold, StopFinishes,
      Releases, Acquires, Wires, RecordOk, PulseOk, LockOk, IntentLockFree, Timed, FreshStop;
    match move
    case RunCycle(env) => CycleKeepsFlag(c, w, env);
    case TakeIntentLock(env) => StartupKeepsFlag(c, w, env);
    case RunnerStops(env) => StopTaskKeepsFlag(w, w.runner.MustStop? && w.runner.blamed, env);
    case RequestStops(env) => if w.request.Halting? { RequestStopKeepsFlag(w, env); }
    case SetTarget(target, env) => TargetKeepsFlag(c, w, target, env);
    case AdjustTarget(amount, increase, env) => AdjustKeepsFlag(c, w, amount, increase, env);
    case Hold(way, env) => HoldKeepsFlag(c, w, way, env);
    case Confirm(env) =>
      if w.stopper.Stopping? {
        FinishKeepsFlag(c, w.(trace := w.trace + [Confirmed(w.stopper.baseline, env.relay)]), false, env);
      }
    case GiveUp(env) => if w.stopper.Stopping? { FinishKeepsFlag(c, w, true, env); }
    case Release(ok, env) => ReleaseKeepsFlag(c, w, ok, env);
    case Acquire(client) => LockKeepsFlag(w, client);
    case Wire => LockKeepsFlag(w, TheRunner);
    case _ =>
  }

  lemma LockKeepsFlag(w: World, client: Client)
    ensures Flags(Acquires(w, client)) == Flags(w) && Flags(Wires(w)) == Flags(w)
  {
    hide StillWanted;
  }

  lemma RequestStopKeepsFlag(w: World, env: Env)
    requires w.request.Halting?
    ensures Lost(RequestStopTask(w, env)) <==> Lost(w)
    ensures RequestStopTask(w, env).shutdown == w.shutdown
  {
  }

  lemma AdjustKeepsFlag(c: Settings, w: World, amount: real, increase: bool, env: Env)
    requires !w.desk.stopping ==> w.stopper == NoStop
    ensures Lost(AdjustsTarget(c, w, amount, increase, env)) <==> Lost(w)
    ensures AdjustsTarget(c, w, amount, increase, env).shutdown == w.shutdown
  {
    hide AsksTarget;
    var t := Asks(w.(desk := w.desk.(pending := None)));
    if t.desk.control.target.Some? {
      TargetKeepsFlag(c, t, t.desk.control.target.value + if increase then amount else -amount, env);
    }
  }

  lemma ReleaseKeepsFlag(c: Settings, w: World, ok: bool, env: Env)
    requires WorldOk(c, w)
    ensures Lost(Releases(c, w, ok, env)) <==> Lost(w)
    ensures Releases(c, w, ok, env).shutdown == Alive <==> w.shutdown == Alive
  {
    assert LockOk(w);
    hide StopFinishes, RecordOk, PulseOk;
    if w.lock.Held? && w.stopper.Stopping? { FinishKeepsFlag(c, w.(lock := Free, now := env.mono), true, env); }
  }

  function Flags(w: World): (bool, Stopper, Shutdown) {
    (w.desk.stopping, w.stopper, w.shutdown)
  }

  lemma CycleKeepsFlag(c: Settings, w: World, env: Env)
    ensures Flags(RunnerCycles(c, w, env)) == Flags(w)
  {
    hide RelayReady, RelayAvailable, InRange, Snapshot, WayAllowed, Toward, Abs, Due;
  }

  lemma StartupKeepsFlag(c: Settings, w: World, env: Env)
    ensures Flags(RunnerLocks(c, w, env)) == Flags(w)
  {
  }

  lemma StopTaskKeepsFlag(w: World, blamed: bool, env: Env)
    ensures Lost(StopTask(w, blamed, env)) <==> Lost(w)
    ensures StopTask(w, blamed, env).shutdown == w.shutdown
  {
  }

  lemma TargetKeepsFlag(c: Settings, w: World, target: real, env: Env)
    requires !w.desk.stopping ==> w.stopper == NoStop
    ensures Lost(AsksTarget(c, w, target, env)) <==> Lost(w)
    ensures AsksTarget(c, w, target, env).shutdown == w.shutdown
  {
  }

  lemma HoldKeepsFlag(c: Settings, w: World, way: Way, env: Env)
    requires !w.desk.stopping ==> w.stopper == NoStop
    ensures Lost(AsksHold(c, w, way, env)) <==> Lost(w)
    ensures AsksHold(c, w, way, env).shutdown == w.shutdown
  {
  }

  lemma FinishKeepsFlag(c: Settings, w: World, failed: bool, env: Env)
    requires w.stopper.Stopping?
    ensures !StopFinishes(c, w, failed, env).desk.stopping
    ensures StopFinishes(c, w, failed, env).shutdown == w.shutdown
  {
    hide RelayReady, RelayAvailable, InRange, Snapshot, WayAllowed, Toward, Abs;
  }

  /** Some STOP has been cancelled while it was sent or confirmed. */
  predicate StopCancelled(c: Settings, generation: nat, first: Env, labels: seq<Label>) {
    exists i :: 0 <= i < |labels| && CancelsAt(c, generation, first, labels, i)
  }

  predicate LostIff(w: World, cancelled: bool) {
    w.shutdown == Alive ==> (Lost(w) <==> cancelled)
  }

  /** Before a shutdown the flag is lost exactly when some STOP was cancelled while it was sent or confirmed. */
  lemma {:induction false} FlagIsLostByCancelling(c: Settings, generation: nat, first: Env, labels: seq<Label>)
    ensures LostIff(Run(c, generation, first, labels), StopCancelled(c, generation, first, labels))
  {
    hide Step, WorldOk, Begin, Lost;
    if Run(c, generation, first, labels).shutdown == Alive {
      if labels == [] {
        StartIsNotLost(generation, first);
      } else {
        var n := |labels| - 1;
        var before := labels[..n];
        RecordHolds(c, generation, first, before);
        StepLoses(c, Run(c, generation, first, before), labels[n]);
        FlagIsLostByCancelling(c, generation, first, before);
        forall i: nat | i < n
          ensures CancelsAt(c, generation, first, before, i) <==> CancelsAt(c, generation, first, labels, i)
        {
          assert before[..i] == labels[..i];
        }
        assert CancelsAt(c, generation, first, labels, n) <==> CancelsStop(Run(c, generation, first, before), labels[n]);
      }
    }
  }

  lemma StartIsNotLost(generation: nat, first: Env)
    ensures !Lost(Begin(generation, first))
  {
  }

  predicate NoIntentAdded(a: seq<Entry>, b: seq<Entry>) {
    |a| <= |b| && b[..|a|] == a && forall i :: |a| <= i < |b| ==> !b[i].Installed?
  }

  predicate StillLost(w: World, t: World) {
    (t.shutdown == Over || Lost(t)) && NoIntentAdded(w.trace, t.trace)
  }

  lemma LostTargetKeeps(c: Settings, w: World, target: real, env: Env)
    requires Lost(w) && w.shutdown != Over
    ensures StillLost(w, AsksTarget(c, w, target, env))
  {
  }

  lemma LostHoldKeeps(c: Settings, w: World, way: Way, env: Env)
    requires Lost(w) && w.shutdown != Over
    ensures StillLost(w, AsksHold(c, w, way, env))
  {
  }

  lemma LostRunnerKeeps(c: Settings, w: World, env: Env)
    requires Lost(w) && w.shutdown != Over
    ensures StillLost(w, RunnerCycles(c, w, env))
    ensures StillLost(w, RunnerLocks(c, w, env))
  {
  }

  lemma LostStepKeeps(c: Settings, w: World, move: Label)
    requires WorldOk(c, w) && Lost(w)
    ensures StillLost(w, Step(c, w, move))
  {
    hide RunnerCycles, RunnerLocks, AsksTarget, AdjustsTarget, AsksHold, StopTask, RequestStopTask, Releases, Acquires,
      Wires, StopFinishes, RecordOk, PulseOk, LockOk, IntentLockFree, Timed;
    if w.shutdown == Over { return; }
    match move
    case RunCycle(env) => LostRunnerKeeps(c, w, env);
    case TakeIntentLock(env) => LostRunnerKeeps(c, w, env);
    case SetTarget(target, env) => LostTargetKeeps(c, w, target, env);
    case AdjustTarget(amount, increase, env) => LostAdjustKeeps(c, w, amount, increase, env);
    case Hold(way, env) => LostHoldKeeps(c, w, way, env);
    case RunnerStops(env) => LostStopKeeps(w, w.runner.MustStop? && w.runner.blamed, env);
    case RequestStops(env) => LostStopKeeps(w, w.request.Halting? && w.request.blamed, env);
    case Release(ok, env) => LostReleaseKeeps(c, w, ok, env);
    case Acquire(client) => LostLockKeeps(w, client);
    case Wire => LostLockKeeps(w, TheRunner);
    case _ =>
  }

  lemma LostLockKeeps(w: World, client: Client)
    requires Lost(w)
    ensures StillLost(w, Acquires(w, client)) && StillLost(w, Wires(w))
  {
    hide StillWanted;
  }

  lemma LostStopKeeps(w: World, blamed: bool, env: Env)
    requires Lost(w)
    ensures forall r: Runner :: StillLost(w, StopTask(w, blamed, env).(runner := r))
    ensures w.request.Halting? ==> StillLost(w, RequestStopTask(w, env))
  {
  }

  lemma LostReleaseKeeps(c: Settings, w: World, ok: bool, env: Env)
    requires WorldOk(c, w) && Lost(w)
    ensures StillLost(w, Releases(c, w, ok, env))
  {
    hide RecordOk, PulseOk, StopFinishes;
  }

  lemma LostAdjustKeeps(c: Settings, w: World, amount: real, increase: bool, env: Env)
    requires Lost(w) && w.shutdown != Over
    ensures StillLost(w, AdjustsTarget(c, w, amount, increase, env))
  {
    hide AsksTarget;
    var t := Asks(w.(desk := w.desk.(pending := None)));
    if t.desk.control.target.Some? {
      LostTargetKeeps(c, t, t.desk.control.target.value + if increase then amount else -amount, env);
    }
  }

  /** Further moves from a state that has been reached. */
  function Onward(c: Settings, w: World, more: seq<Label>): World {
    if more == [] then w else Step(c, Onward(c, w, more[..|more| - 1]), more[|more| - 1])
  }

  lemma {:induction false} OnwardIsRun(c: Settings, generation: nat, first: Env, labels: seq<Label>, more: seq<Label>)
    ensures Onward(c, Run(c, generation, first, labels), more) == Run(c, generation, first, labels + more)
  {
    hide Step;
    if more == [] {
      assert labels + more == labels;
    } else {
      OnwardIsRun(c, generation, first, labels, more[..|more| - 1]);
      assert (labels + more)[..|labels + more| - 1] == labels + more[..|more| - 1];
    }
  }

  /** From then on, until a shutdown is over, no request is served: nothing installs an intent again. */
  lemma {:induction false} LostForGood(c: Settings, w: World, more: seq<Label>)
    requires WorldOk(c, w) && Lost(w)
    ensures WorldOk(c, Onward(c, w, more)) && StillLost(w, Onward(c, w, more))
  {
    hide Step, WorldOk;
    if more != [] {
      var t, move := Onward(c, w, more[..|more| - 1]), more[|more| - 1];
      LostForGood(c, w, more[..|more| - 1]);
      StepKeepsWorld(c, t, move);
      if t.shutdown == Over { OverStays(c, t, move); } else { LostStepKeeps(c, t, move); }
    }
  }

  lemma OverStays(c: Settings, w: World, move: Label)
    requires w.shutdown == Over
    ensures Step(c, w, move) == w
  {
  }

  // A run that gets there: start, SetTarget, a second SetTarget, and its caller goes away.

  const EXAMPLE: Settings :=
    Settings(73.0, 118.0, 75.0, 115.0, 0.2, 1.5, 500, 500, 100, 100, 50, 600, 120_000, 1000, 1100, 15_000, 5000, 3000)

  function Calm(mono: int, heardAt: int): Env {
    Env(mono, mono, Monitor(true, Some(90.0), Some(mono), Some(Live)), Connected,
        RelayReport(Some(StoppedEvent), Some(RelayStop), true, Some(Ready), Some(heardAt), false))
  }

  const CANCELLED: seq<Label> :=
    [Acquire(TheStopper), Wire, Release(true, Calm(1, 0)), Confirm(Calm(2, 2)),
     SetTarget(100.0, Calm(3, 2)), SetTarget(95.0, Calm(4, 2)), RequestFails]

  /** start() cancelled before its STOP has gone out does so as well. */
  lemma CancelledStartLosesTheFlag()
    ensures Lost(Run(EXAMPLE, 0, Calm(0, 0), [StartFails])) && Run(EXAMPLE, 0, Calm(0, 0), [StartFails]).shutdown == Alive
  {
    assert [StartFails][..0] == [];
  }

  lemma RunExtends(c: Settings, generation: nat, first: Env, labels: seq<Label>, n: nat)
    requires n < |labels|
    ensures Run(c, generation, first, labels[..n + 1])
         == Step(c, Run(c, generation, first, labels[..n]), labels[n])
  {
    assert labels[..n + 1][..n] == labels[..n];
  }

  function Example(n: nat): World
    requires n <= |CANCELLED|
  {
    Run(EXAMPLE, 0, Calm(0, 0), CANCELLED[..n])
  }

  lemma ExampleExtends(n: nat)
    requires n < |CANCELLED|
    ensures Example(n + 1) == Step(EXAMPLE, Example(n), CANCELLED[n])
  {
    RunExtends(EXAMPLE, 0, Calm(0, 0), CANCELLED, n);
  }

  predicate OneStopSent(w: World, entries: nat) {
    |w.trace| == entries && entries > 0 && w.trace[0].Sent? && forall i :: 1 <= i < entries ==> !w.trace[i].Sent?
  }

  lemma ExampleStops()
    ensures var w := Example(3);
      && w.desk == Started(0) && w.now == 1 && w.lock == Free && w.request == NoRequest
      && w.stopper == Stopping(ByStart, Some(0), true) && w.shutdown == Alive && w.runner == Waiting
      && OneStopSent(w, 2)
  {
    hide RunnerCycles, RunnerLocks, StopTask, RequestStopTask, AsksTarget, AdjustsTarget, AsksHold,
      StopFinishes;
    assert CANCELLED[..0] == [];
    ExampleExtends(0);
    ExampleExtends(1);
    ExampleExtends(2);
    assert CANCELLED[0] == Acquire(TheStopper) && CANCELLED[1] == Wire;
    assert CANCELLED[2] == Release(true, Calm(1, 0));
  }

  lemma ExampleStarts()
    ensures var w := Example(4);
      && Accepting(w.desk) && w.desk.control.mode == NoMotion && !w.desk.control.awaiting && w.now == 2
      && w.lock == Free && w.request == NoRequest && w.stopper == NoStop && w.shutdown == Alive && w.runner == Waiting
      && OneStopSent(w, 4)
  {
    hide RunnerCycles, RunnerLocks, StopTask, RequestStopTask, AsksTarget, AdjustsTarget, AsksHold, Releases,
      Wires, Acquires, RequestProceeds, Run;
    ExampleStops();
    ExampleExtends(3);
    assert CANCELLED[3] == Confirm(Calm(2, 2));
  }

  lemma ExampleMoves()
    ensures var w := Example(5);
      && Accepting(w.desk) && w.desk.control.mode == Target && !w.desk.control.awaiting && w.now == 3
      && w.desk.control.target == Some(100.0)
      && w.lock == Free && w.request == NoRequest && w.stopper == NoStop && w.shutdown == Alive && w.runner == Waiting
      && OneStopSent(w, 6)
  {
    hide RunnerCycles, RunnerLocks, StopTask, RequestStopTask, AdjustsTarget, AsksHold, StopFinishes, Releases,
      Wires, Acquires, Run;
    ExampleStarts();
    ExampleExtends(4);
    assert CANCELLED[4] == SetTarget(100.0, Calm(3, 2));
  }

  /** The concrete run loses the flag, with valid settings, a healthy relay and no shutdown. */
  lemma CancelledHandOverLosesTheFlag()
    ensures ValidSettings(EXAMPLE)
    ensures var w := Example(7);
      && Lost(w) && w.shutdown == Alive && w.runner == Waiting && w.lock == Free && w.request == NoRequest
      && OneStopSent(w, 8)
  {
    hide RunnerCycles, RunnerLocks, StopTask, RequestStopTask, AdjustsTarget, AsksHold, StopFinishes, Releases,
      Wires, Acquires, TargetProceeds, Run;
    ExampleMoves();
    ExampleExtends(5);
    ExampleExtends(6);
    assert CANCELLED[5] == SetTarget(95.0, Calm(4, 2)) && CANCELLED[6] == RequestFails;
  }

  // ---- A request during start()

  /** The last height is two seconds old. */
  function Sleepy(mono: int, heardAt: int): Env {
    Env(mono, mono, Monitor(true, Some(90.0), Some(mono - 2000), Some(Live)), Connected,
        RelayReport(Some(StoppedEvent), Some(RelayStop), true, Some(HeightWaiting), Some(heardAt), false))
  }

  const EARLY: seq<Label> :=
    [SetTarget(100.0, Sleepy(1, 0)), Acquire(TheStopper), Wire, Release(true, Sleepy(2, 0)), Confirm(Sleepy(3, 3)),
     RunCycle(Sleepy(4, 3)), TakeIntentLock(Sleepy(5, 3))]

  function AfterEarly(n: nat): World
    requires n <= |EARLY|
  {
    Run(EXAMPLE, 0, Sleepy(0, 0), EARLY[..n])
  }

  lemma EarlyExtends(n: nat)
    requires n < |EARLY|
    ensures AfterEarly(n + 1) == Step(EXAMPLE, AfterEarly(n), EARLY[n])
  {
    RunExtends(EXAMPLE, 0, Sleepy(0, 0), EARLY, n);
  }

  lemma EarlyIsRefused()
    ensures var w := AfterEarly(1);
      w == Begin(0, Sleepy(0, 0)).(now := 1, trace := [Asked(1)])
  {
    hide RunnerCycles, RunnerLocks, StopTask, RequestStopTask, AdjustsTarget, AsksHold, StopFinishes, Releases,
      Wires, Acquires;
    assert EARLY[..0] == [];
    EarlyExtends(0);
    assert EARLY[0] == SetTarget(100.0, Sleepy(1, 0));
  }

  lemma EarlyStops()
    ensures var w := AfterEarly(4);
      && w.desk == Started(0) && w.now == 2 && w.lock == Free && w.request == NoRequest
      && w.stopper == Stopping(ByStart, Some(0), true) && w.shutdown == Alive && w.runner == Waiting
      && |w.trace| == 3 && w.trace[0] == Asked(1)
  {
    hide RunnerCycles, RunnerLocks, StopTask, RequestStopTask, AsksTarget, AdjustsTarget, AsksHold, StopFinishes,
      Run;
    EarlyIsRefused();
    EarlyExtends(1);
    EarlyExtends(2);
    EarlyExtends(3);
    assert EARLY[1] == Acquire(TheStopper) && EARLY[2] == Wire && EARLY[3] == Release(true, Sleepy(2, 0));
  }

  lemma EarlyStarts()
    ensures var w := AfterEarly(5);
      && Accepting(w.desk) && w.desk.control == NoIntent(Idle, 1) && w.desk.pending == Some(3003) && w.now == 3
      && w.lock == Free && w.request == NoRequest && w.shutdown == Alive && w.runner == Waiting
      && |w.trace| == 5 && w.trace[0] == Asked(1)
  {
    hide RunnerCycles, RunnerLocks, StopTask, RequestStopTask, AsksTarget, AdjustsTarget, AsksHold, Releases,
      Wires, Acquires, RequestProceeds, Run;
    EarlyStops();
    EarlyExtends(4);
    assert EARLY[4] == Confirm(Sleepy(3, 3));
  }

  lemma EarlyLooks()
    ensures var w := AfterEarly(6);
      && Accepting(w.desk) && w.desk.control == NoIntent(Idle, 1) && w.desk.pending == Some(3003) && w.now == 4
      && w.request == NoRequest && w.shutdown == Alive && w.runner == WantsIntentLock
      && |w.trace| == 5 && w.trace[0] == Asked(1)
  {
    hide RunnerLocks, StopTask, RequestStopTask, AsksTarget, AdjustsTarget, AsksHold, StopFinishes, Releases, Wires,
      Acquires, TargetCycle, WakeCycle, Run;
    EarlyStarts();
    EarlyExtends(5);
    assert EARLY[5] == RunCycle(Sleepy(4, 3));
  }

  /** A target that passed validation while start() was still confirming its STOP does not prevent the WAKE. */
  lemma EarlyRequestDoesNotPreventWake()
    ensures var trace := AfterEarly(7).trace;
      && |trace| == 6 && trace[0] == Asked(1)
      && trace[5].Installed? && trace[5].origin == Startup && trace[5].control.mode == Wake
  {
    hide RunnerCycles, StopTask, RequestStopTask, AsksTarget, AdjustsTarget, AsksHold, StopFinishes, Releases, Wires,
      Acquires, Run;
    EarlyLooks();
    EarlyExtends(6);
    assert EARLY[6] == TakeIntentLock(Sleepy(5, 3));
  }
}
