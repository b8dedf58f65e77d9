// The order of the commands on the wire, over all interleavings.
module DeskWire {
  import opened Policy
  import opened DeskModel
  import opened DeskWorld
  import opened DeskRecord

  /** A pulse is stamped with the generation it was decided for, a STOP with the one it was sent under. */
  function Stamp(e: Entry): Option<nat> {
    match e
    case Sent(PulseMessage(p), _, _) => Some(p.generation)
    case Sent(StopMessage, g, _) => Some(g)
    case _ => None
  }

  function Top(trace: seq<Entry>): nat {
    if trace == [] then 0
    else
      var n := |trace| - 1;
      var t := Top(trace[..n]);
      if Stamp(trace[n]).Some? && Stamp(trace[n]).value > t then Stamp(trace[n]).value else t
  }

  predicate WireOrdered(trace: seq<Entry>) {
    trace == [] ||
    var n := |trace| - 1;
    WireOrdered(trace[..n]) && (Stamp(trace[n]).Some? ==> Top(trace[..n]) <= Stamp(trace[n]).value)
  }

  lemma {:induction false} TopBounds(trace: seq<Entry>, i: nat)
    requires i < |trace| && Stamp(trace[i]).Some?
    ensures Stamp(trace[i]).value <= Top(trace)
  {
    var n := |trace| - 1;
    if i < n { TopBounds(trace[..n], i); }
  }

  lemma {:induction false} OrderedPairs(trace: seq<Entry>, i: nat, j: nat)
    requires WireOrdered(trace) && i < j < |trace| && Stamp(trace[i]).Some? && Stamp(trace[j]).Some?
    ensures Stamp(trace[i]).value <= Stamp(trace[j]).value
  {
    var n := |trace| - 1;
    if j < n { OrderedPairs(trace[..n], i, j); } else { TopBounds(trace[..n], i); }
  }

  /** Only entries that are not on the wire have been added. */
  predicate Quietly(a: seq<Entry>, b: seq<Entry>) {
    a <= b && forall i :: |a| <= i < |b| ==> !b[i].Sent?
  }

  lemma {:induction false} QuietTop(a: seq<Entry>, b: seq<Entry>)
    requires Quietly(a, b)
    ensures Top(b) == Top(a)
    ensures WireOrdered(a) ==> WireOrdered(b)
    decreases |b|
  {
    var n := |b| - 1;
    if |a| < |b| {
      assert b[..n][..|a|] == a;
      QuietTop(a, b[..n]);
    } else {
      assert a == b;
    }
  }

  /** What every move but Wire does: the generation does not fall and nothing goes on the wire. */
  predicate Grows(w: World, t: World) {
    t.desk.control.generation >= w.desk.control.generation && Quietly(w.trace, t.trace)
  }

  /** What the runner does next; a startup WAKE also installs its intent. */
  function TurnTo(r: Runner, act: Act): Runner {
    match act
    case Rest => r
    case Stop(blamed) => MustStop(false, blamed)
    case Publish(pulse) => Sending(PulseMessage(pulse))
    case SendStop => Sending(StopMessage)
    case Lock => WantsIntentLock
    case Nudge(order) => Sending(WakeMessage(order))
  }

  lemma TurnIs(w: World, d: Desk, act: Act, env: Env)
    requires !act.Nudge?
    ensures RunnerActs(w, d, act, env) ==
      w.(desk := d, now := env.mono, runner := TurnTo(w.runner, act),
         trace := if w.desk.control.awaiting && !d.control.awaiting && d.control.mode != NoMotion
                  then w.trace + [Activated(w.desk.control.generation, env)] else w.trace)
  {
  }

  lemma RunnerGrows(c: Settings, w: World, d: Desk, act: Act, env: Env)
    requires d.control.generation >= w.desk.control.generation
    ensures Grows(w, RunnerActs(w, d, act, env))
  {
  }

  lemma RequestGrows(w: World, d: Desk, next: Next, goal: Goal, origin: Origin, env: Env)
    requires d.control.generation >= w.desk.control.generation
    ensures Grows(w, RequestActs(w, d, next, goal, origin, env))
  {
  }

  lemma AsksGrow(c: Settings, w: World, env: Env)
    requires WorldOk(c, w)
    ensures forall target: real :: Grows(w, AsksTarget(c, w, target, env))
    ensures forall way: Way :: Grows(w, AsksHold(c, w, way, env))
  {
    hide TargetEnters, HoldEnters, RequestActs;
    forall target: real ensures Grows(w, AsksTarget(c, w, target, env)) {
      TargetKeeps(c, w.desk, target, env);
      StopKeeps(c, w.desk.(pending := None), env);
      var t := if c.opMin <= target <= c.opMax then w.(trace := w.trace + [Asked(w.desk.control.generation)]) else w;
      var (d, next) := TargetEnters(c, w.desk, target, env);
      RequestGrows(t, d, next, ToTarget(target), Direct(LiveIntent(w.desk)), env);
    }
    forall way: Way ensures Grows(w, AsksHold(c, w, way, env)) {
      HoldKeeps(c, w.desk, way, env);
      StopKeeps(c, w.desk.(pending := None), env);
      var t := if Accepting(w.desk) then w.(trace := w.trace + [Asked(w.desk.control.generation)]) else w;
      var (d, next) := HoldEnters(c, w.desk, way, env);
      RequestGrows(t, d, next, ToHold(way), Direct(LiveIntent(w.desk)), env);
    }
  }

  lemma AdjustGrows(c: Settings, w: World, amount: real, increase: bool, env: Env)
    requires WorldOk(c, w)
    ensures Grows(w, AdjustsTarget(c, w, amount, increase, env))
  {
    hide AsksTarget, RecordOk, TasksOk;
    var t := Asks(w.(desk := w.desk.(pending := None)));
    assert WorldOk(c, t) by { CancellingKeeps(c, w); }
    AsksGrow(c, t, env);
  }

  lemma CancellingKeeps(c: Settings, w: World)
    requires WorldOk(c, w)
    ensures WorldOk(c, Asks(w.(desk := w.desk.(pending := None))))
  {
    PendingKeeps(c, w.desk);
  }

  lemma StopFinishGrows(c: Settings, w: World, failed: bool, env: Env)
    requires WorldOk(c, w) && w.shutdown != Over && w.stopper.Stopping?
    ensures Grows(w, StopFinishes(c, w, failed, env))
  {
    hide TargetProceeds, HoldProceeds, RequestActs;
    if w.stopper.owner == ByRequest && !failed {
      var u := w.(stopper := NoStop, now := env.mono, desk := StopEnds(w.desk, false));
      var origin := After(w.request.replaced, w.request.since);
      match w.request.goal
      case ToTarget(target) =>
        TargetProceedKeeps(c, u.desk, target, env);
        var (d, next) := TargetProceeds(c, u.desk, target, env);
        RequestGrows(u, d, next, w.request.goal, origin, env);
      case ToHold(way) =>
        HoldProceedKeeps(c, u.desk, way, env);
        var (d, next) := HoldProceeds(c, u.desk, way, env);
        RequestGrows(u, d, next, w.request.goal, origin, env);
    }
  }

  lemma ShareGrows(c: Settings, w: World, move: Label)
    requires WorldOk(c, w) && w.shutdown != Over
    requires move in {RunnerFails, RequestFails, StopTaskFails, StartFails, BeginShutdown, EndShutdown}
             || move.Acquire? || move.StopMotion? || move.RunnerStops? || move.RequestStops?
    ensures Grows(w, Step(c, w, move))
  {
  }

  /** Every move but Wire leaves the wire alone and never lowers the generation. */
  lemma StepGrows(c: Settings, w: World, move: Label)
    requires WorldOk(c, w) && move != Wire
    ensures Grows(w, Step(c, w, move))
  {
    hide Cycle, StartupCycle, RunnerActs, AsksTarget, AdjustsTarget, AsksHold, StopFinishes, Releases, StopTask,
      RequestStopTask, RecordOk, PulseOk, LockOk, Timed;
    if w.shutdown == Over { return; }
    match move
    case RunCycle(env) =>
      CycleKeeps(c, w.desk, env);
      RunnerGrows(c, w, Cycle(c, w.desk, env).0, Cycle(c, w.desk, env).1, env);
    case TakeIntentLock(env) =>
      StartupKeeps(c, w.desk, env);
      RunnerGrows(c, w.(runner := Waiting), StartupCycle(c, w.desk, env).0, StartupCycle(c, w.desk, env).1, env);
    case SetTarget(target, env) => AsksGrow(c, w, env);
    case AdjustTarget(amount, increase, env) => AdjustGrows(c, w, amount, increase, env);
    case Hold(way, env) => AsksGrow(c, w, env);
    case Confirm(env) => if w.stopper.Stopping? { ConfirmGrows(c, w, env); }
    case GiveUp(env) => if w.stopper.Stopping? { StopFinishGrows(c, w, true, env); }
    case Release(ok, env) => ReleaseGrows(c, w, ok, env);
    case _ => ShareGrows(c, w, move);
  }

  lemma ConfirmGrows(c: Settings, w: World, env: Env)
    requires WorldOk(c, w) && w.shutdown != Over && w.stopper.Stopping?
    ensures Grows(w, StopFinishes(c, w.(trace := w.trace + [Confirmed(w.stopper.baseline, env.relay)]), false, env))
  {
    hide StopFinishes, RecordOk;
    StopFinishGrows(c, w.(trace := w.trace + [Confirmed(w.stopper.baseline, env.relay)]), false, env);
  }

  lemma ReleaseGrows(c: Settings, w: World, ok: bool, env: Env)
    requires WorldOk(c, w) && w.shutdown != Over
    ensures Grows(w, Releases(c, w, ok, env))
  {
    hide StopFinishes, RecordOk;
    if w.lock.Held? && w.lock.client == TheStopper && !ok && w.stopper.Stopping? {
      StopFinishGrows(c, w.(lock := Free, now := env.mono), true, env);
    }
  }

  // ---- The order of the wire

  /** A pulse being sent is not older than anything already on the wire. */
  predicate WireOk(w: World) {
    && WireOrdered(w.trace)
    && Top(w.trace) <= w.desk.control.generation
    && (w.lock.Held? && w.lock.message.PulseMessage? && !w.lock.sent ==>
          Top(w.trace) <= w.lock.message.pulse.generation)
  }

  /** The lock changes hands only through Acquire, which takes it for a pulse only of the present generation. */
  lemma StepLocks(c: Settings, w: World, move: Label)
    requires WorldOk(c, w) && move != Wire
    ensures var t := Step(c, w, move);
      t.lock == w.lock || t.lock == Free ||
      (t.lock.Held? && (t.lock.message.PulseMessage? ==> t.lock.message.pulse.generation == t.desk.control.generation))
  {
    hide RunnerCycles, RunnerLocks, StopTask, RequestStopTask, AsksTarget, AdjustsTarget, AsksHold, StopFinishes,
      RunnerReturns, RecordOk, PulseOk, Timed, FreshStop;
    match move
    case RunCycle(env) => RunnerLeavesLock(c, w, env);
    case TakeIntentLock(env) => RunnerLeavesLock(c, w, env);
    case SetTarget(target, env) => AskLeavesLock(c, w, target, Up, env);
    case AdjustTarget(amount, increase, env) => AdjustLeavesLock(c, w, amount, increase, env);
    case Hold(way, env) => AskLeavesLock(c, w, 0.0, way, env);
    case RunnerStops(env) => StopLeavesLock(w, w.runner.MustStop? && w.runner.blamed, env);
    case RequestStops(env) => StopLeavesLock(w, false, env);
    case Confirm(env) =>
      if w.stopper.Stopping? {
        FinishLeavesLock(c, w.(trace := w.trace + [Confirmed(w.stopper.baseline, env.relay)]), false, env);
      }
    case GiveUp(env) => if w.stopper.Stopping? { FinishLeavesLock(c, w, true, env); }
    case Release(ok, env) => ReleaseFreesLock(c, w, ok, env);
    case _ =>
  }

  lemma RunnerLeavesLock(c: Settings, w: World, env: Env)
    ensures RunnerCycles(c, w, env).lock == w.lock && RunnerLocks(c, w, env).lock == w.lock
  {
    hide Cycle, StartupCycle;
  }

  lemma AskLeavesLock(c: Settings, w: World, target: real, way: Way, env: Env)
    ensures AsksTarget(c, w, target, env).lock == w.lock && AsksHold(c, w, way, env).lock == w.lock
  {
    hide TargetEnters, HoldEnters;
  }

  lemma AdjustLeavesLock(c: Settings, w: World, amount: real, increase: bool, env: Env)
    ensures AdjustsTarget(c, w, amount, increase, env).lock == w.lock
  {
    hide AsksTarget;
    var t := Asks(w.(desk := w.desk.(pending := None)));
    if t.desk.control.target.Some? {
      AskLeavesLock(c, t, t.desk.control.target.value + if increase then amount else -amount, Up, env);
    }
  }

  lemma StopLeavesLock(w: World, blamed: bool, env: Env)
    ensures StopTask(w, blamed, env).lock == w.lock
    ensures w.request.Halting? ==> RequestStopTask(w, env).lock == w.lock
  {
    hide StopBegins;
  }

  lemma FinishLeavesLock(c: Settings, w: World, failed: bool, env: Env)
    requires w.stopper.Stopping?
    ensures StopFinishes(c, w, failed, env).lock == w.lock
  {
    hide TargetProceeds, HoldProceeds, StartEnds;
  }

  lemma ReleaseFreesLock(c: Settings, w: World, ok: bool, env: Env)
    ensures Releases(c, w, ok, env).lock == w.lock || Releases(c, w, ok, env).lock == Free
  {
    hide StopFinishes;
    if w.stopper.Stopping? { FinishLeavesLock(c, w.(lock := Free, now := env.mono), true, env); }
  }

  lemma StepKeepsWire(c: Settings, w: World, move: Label)
    requires WorldOk(c, w) && WireOk(w)
    ensures WireOk(Step(c, w, move))
  {
    hide Step, WorldOk;
    if move == Wire {
      WireKeepsWire(c, w);
    } else {
      StepGrows(c, w, move);
      StepLocks(c, w, move);
      QuietTop(w.trace, Step(c, w, move).trace);
    }
  }

  lemma WireKeepsWire(c: Settings, w: World)
    requires WorldOk(c, w) && WireOk(w)
    ensures WireOk(Step(c, w, Wire))
  {
    WiresInOrder(c, w);
    hide RecordOk, TasksOk, Wires;
  }

  lemma WiresInOrder(c: Settings, w: World)
    requires WorldOk(c, w) && WireOk(w)
    ensures WireOk(Wires(w))
  {
    hide RecordOk;
    var t := Wires(w);
    if t != w { assert t.trace[..|w.trace|] == w.trace; }
  }

  lemma {:induction false} WireHolds(c: Settings, generation: nat, first: Env, labels: seq<Label>)
    ensures WireOk(Run(c, generation, first, labels))
  {
    if labels != [] {
      var n := |labels| - 1;
      var w := Run(c, generation, first, labels[..n]);
      WireHolds(c, generation, first, labels[..n]);
      RecordHolds(c, generation, first, labels[..n]);
      StepKeepsWire(c, w, labels[n]);
    }
  }

  predicate StampsRise(trace: seq<Entry>) {
    forall i, j :: 0 <= i < j < |trace| && Stamp(trace[i]).Some? && Stamp(trace[j]).Some? ==>
      Stamp(trace[i]).value <= Stamp(trace[j]).value
  }

  /**
   * In every interleaving the stamps of the pulses and STOPs on the wire never decrease. So a pulse of a
   * generation never follows a STOP sent under a later one, an in-flight pulse precedes the STOP that
   * cancels it, and the pulses of a replaced intent precede those of its successor.
   */
  lemma {:induction false} StopDominates(c: Settings, generation: nat, first: Env, labels: seq<Label>)
    ensures StampsRise(Run(c, generation, first, labels).trace)
  {
    hide Run;
    WireHolds(c, generation, first, labels);
    OrderedRises(Run(c, generation, first, labels).trace);
  }

  lemma OrderedRises(trace: seq<Entry>)
    requires WireOrdered(trace)
    ensures StampsRise(trace)
  {
    forall i, j | 0 <= i < j < |trace| && Stamp(trace[i]).Some? && Stamp(trace[j]).Some?
      ensures Stamp(trace[i]).value <= Stamp(trace[j]).value
    {
      OrderedPairs(trace, i, j);
    }
  }
}
