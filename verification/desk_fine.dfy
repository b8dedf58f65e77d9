// Fine pulses that are decided on and never sent: which they are, that the run then stands still, a run
// that gets there, and the settings under which none does.
module DeskFine {
  import opened Policy
  import opened HeightMonitors
  import opened DeskModel
  import opened DeskWorld
  import opened DeskRecord
  import opened DeskWire
  import opened DeskPulses
  import opened DeskTargets
  import opened DeskFindings

  // ---- Which pulses they are

  /** In its fine phase the run has a direction on record, and the height now asks for the other one. */
  predicate FinePast(c: Settings, d: Desk, e: Env) {
    && d.control.mode == Target && d.control.phase == Some(Fine)
    && d.control.target.Some? && e.monitor.height.Some?
    && d.control.direction != Some(Toward(d.control.target.value - e.monitor.height.value))
  }

  /**
   * A pulse decided on in a cycle passes the check made under the relay lock, as long as nothing else
   * happens, if and only if its run is not past its target in this sense.
   */
  lemma DecidedIsWanted(c: Settings, d: Desk, e: Env)
    requires RecordOk(c, d)
    ensures var (t, act) := Cycle(c, d, e);
      act.Publish? ==> (StillWanted(t, act.pulse) <==> !FinePast(c, d, e))
  {
  }

  // ---- What follows

  /** The runner's own moves while the height stays on that side, unless a cycle stops the motion. */
  predicate StaysPast(c: Settings, w: World, move: Label) {
    match move
    case RunCycle(env) =>
      w.runner == Waiting && Timed(w, env) ==> FinePast(c, w.desk, env) && !Cycle(c, w.desk, env).1.Stop?
    case Acquire(client) => client == TheRunner
    case Wire => true
    case Release(_, _) => true
    case TakeIntentLock(_) => true
    case RunnerStops(_) => true
    case _ => false
  }

  predicate AllStayPast(c: Settings, w: World, moves: seq<Label>) {
    moves == [] ||
    var n := |moves| - 1;
    AllStayPast(c, w, moves[..n]) && StaysPast(c, Onward(c, w, moves[..n]), moves[n])
  }

  /** The runner is between cycles of a run in its fine phase, or about to offer a pulse the other way. */
  predicate Stands(w: World) {
    && w.lock == Free
    && w.desk.control.phase == Some(Fine) && w.desk.control.mode == Target
    && (w.runner == Waiting
        || (w.runner.Sending? && w.runner.message.PulseMessage? && w.desk.control.direction != Some(w.runner.message.pulse.way)))
  }

  lemma StandsStill(c: Settings, w: World, move: Label)
    requires WorldOk(c, w) && Stands(w) && StaysPast(c, w, move)
    ensures var t := Step(c, w, move);
      Stands(t) && t.desk.control == w.desk.control && t.trace == w.trace
  {
    if move.RunCycle? && w.runner == Waiting && Timed(w, move.env) { PastCycleRests(c, w.desk, move.env); }
    hide Cycle, StartupCycle;
  }

  lemma PastCycleRests(c: Settings, d: Desk, e: Env)
    requires RecordOk(c, d) && FinePast(c, d, e) && !Cycle(c, d, e).1.Stop?
    ensures var (t, act) := Cycle(c, d, e);
      t.control == d.control && (act == Rest || (act.Publish? && d.control.direction != Some(act.pulse.way)))
  {
  }

  /**
   * However many cycles follow, with every move of the runner that belongs to them, nothing is sent and the
   * record stays as it is: only another height, the timeout or another stop of the motion ends that.
   */
  lemma {:induction false} NothingIsSent(c: Settings, w: World, moves: seq<Label>)
    requires WorldOk(c, w) && Stands(w) && AllStayPast(c, w, moves)
    ensures var t := Onward(c, w, moves);
      WorldOk(c, t) && Stands(t) && t.desk.control == w.desk.control && t.trace == w.trace
  {
    hide Step, WorldOk, StaysPast, Stands;
    if moves != [] {
      var n := |moves| - 1;
      NothingIsSent(c, w, moves[..n]);
      StandsStill(c, Onward(c, w, moves[..n]), moves[n]);
      StepKeepsWorld(c, Onward(c, w, moves[..n]), moves[n]);
    }
  }

  // ---- When it cannot happen

  /** The two clocks of the controller advance together, and no height is dated ahead of them. */
  predicate Clocked(e: Env, offset: int) {
    e.wall == e.mono + offset && (e.monitor.observedAt.Some? ==> e.monitor.observedAt.value <= e.wall)
  }

  predicate MoveClocked(move: Label, offset: int) {
    match move
    case RunCycle(env) => Clocked(env, offset)
    case _ => true
  }

  predicate Busy(w: World) {
    w.runner.MustStop? || w.runner == Dead
    || (w.runner.Sending? && w.runner.message.PulseMessage?
        && w.runner.message.pulse.fineAt.Some? && w.runner.message.pulse.generation == w.desk.control.generation)
  }

  predicate FineTimes(c: Settings, w: World, p: Pulse, offset: int) {
    && p.startedAt <= w.now
    && (p.fineAt.Some? ==>
          p.fineAt.value <= p.startedAt + offset && p.holdMs == c.fineHoldMs && p.control.direction == Some(p.way))
  }

  /** A target run is in its fine phase only while a pulse is being sent, and a settled one has a newer height. */
  predicate Brisk(c: Settings, w: World, offset: int) {
    var k, m := w.desk.control, w.desk.motion;
    && (k.mode == Target ==>
          && (k.phase == Some(Continuous) ==> m.lastFineAt.None?)
          && (k.phase == Some(Settling) && m.lastFineAt.Some? ==>
                m.settleUntil.Some? && m.lastFineAt.value + Spacing(c, true) <= m.settleUntil.value + offset)
          && (k.phase == Some(Fine) ==> Busy(w))
          && (w.runner == Sending(StopMessage) ==> m.lastFineAt.None?))
    && (w.runner.Sending? && w.runner.message.PulseMessage? ==> FineTimes(c, w, w.runner.message.pulse, offset))
  }

  /** What a cycle finds of a target run. */
  predicate Rested(c: Settings, d: Desk, offset: int) {
    d.control.mode == Target ==>
      && d.control.phase != Some(Fine)
      && (d.control.phase == Some(Continuous) ==> d.motion.lastFineAt.None?)
      && (d.control.phase == Some(Settling) && d.motion.lastFineAt.Some? ==>
            && d.motion.settleUntil.Some?
            && d.motion.lastFineAt.value + Spacing(c, true) <= d.motion.settleUntil.value + offset)
  }

  /** What it makes of it. */
  predicate Proceeds(c: Settings, d: Desk, e: Env, offset: int, t: Desk, act: Act) {
    && (act.Publish? ==>
          && act.pulse.startedAt == e.mono && act.pulse.generation == t.control.generation
          && (act.pulse.fineAt.Some? ==>
                && act.pulse.fineAt.value <= e.mono + offset && act.pulse.holdMs == c.fineHoldMs
                && act.pulse.control.direction == Some(act.pulse.way)))
    && (t.control.mode == Target ==>
          && d.control.mode == Target
          && t.motion.lastFineAt == d.motion.lastFineAt && t.motion.settleUntil == d.motion.settleUntil
          && (t.control.phase == Some(Continuous) ==> d.motion.lastFineAt.None?)
          && (t.control.phase == Some(Settling) && d.control.phase != Some(Settling) ==> d.motion.lastFineAt.None?)
          && (t.control.phase == Some(Fine) ==> act.Stop? || (act.Publish? && act.pulse.fineAt.Some?))
          && (act == SendStop ==> d.motion.lastFineAt.None?))
  }

  lemma TargetIsBrisk(c: Settings, d: Desk, e: Env, offset: int)
    requires RecordOk(c, d) && Rested(c, d, offset) && c.heightStaleMs < Spacing(c, true) && Clocked(e, offset)
    requires d.control.mode == Target && !d.control.awaiting && HeightUsable(c, HeightIn(c, e))
    ensures Proceeds(c, d, e, offset, TargetCycle(c, d, e).0, TargetCycle(c, d, e).1)
  {
    assert e.wall - e.monitor.observedAt.value <= c.heightStaleMs;
    hide WayAllowed, Abs, Spacing;
  }

  lemma CycleIsBrisk(c: Settings, d: Desk, e: Env, offset: int)
    requires RecordOk(c, d) && Rested(c, d, offset) && c.heightStaleMs < Spacing(c, true) && Clocked(e, offset)
    ensures Proceeds(c, d, e, offset, Cycle(c, d, e).0, Cycle(c, d, e).1)
  {
    hide WakeCycle, TargetCycle, RelayAnswer, RelayReady, Spacing, HeightUsable;
    RelayAnswerKeeps(c, d, e);
    if d.control.awaiting {
      WakeIsBrisk(c, d, e);
    } else if d.control.mode == Target {
      if HeightUsable(c, HeightIn(c, e)) { TargetIsBrisk(c, RelayAnswer(c, d, e).0, e, offset); }
    } else {
      OthersAreBrisk(c, d, e);
    }
  }

  lemma OthersAreBrisk(c: Settings, d: Desk, e: Env)
    requires RecordOk(c, d) && !d.control.awaiting && d.control.mode != Target
    ensures var (t, act) := Cycle(c, d, e);
      t.control.mode != Target && (act.Publish? ==>
        act.pulse.startedAt == e.mono && act.pulse.generation == t.control.generation && act.pulse.fineAt.None?)
  {
    hide WakeCycle, TargetCycle;
  }

  lemma WakeIsBrisk(c: Settings, d: Desk, e: Env)
    requires RecordOk(c, d) && d.control.awaiting
    ensures var (t, act) := WakeCycle(c, d, e);
      && (act == Rest || act.Stop?)
      && (t.control.mode == Target ==>
            && d.control.mode == Target && t.control.phase == Some(Continuous) && d.control.phase == Some(Continuous)
            && t.motion.lastFineAt == d.motion.lastFineAt && t.motion.settleUntil == d.motion.settleUntil)
  {
  }

  lemma RunnerIsBrisk(c: Settings, w: World, env: Env, offset: int)
    requires WorldOk(c, w) && Brisk(c, w, offset) && w.runner == Waiting && Timed(w, env)
    requires c.heightStaleMs < Spacing(c, true) && Clocked(env, offset)
    ensures Brisk(c, RunnerCycles(c, w, env), offset)
  {
    hide Cycle, RecordOk, TasksOk, Spacing;
    CycleIsBrisk(c, w.desk, env, offset);
  }

  lemma StartupIsBrisk(c: Settings, w: World, env: Env, offset: int)
    requires WorldOk(c, w) && Brisk(c, w, offset) && w.runner == WantsIntentLock && Timed(w, env)
    ensures Brisk(c, RunnerLocks(c, w, env), offset)
  {
    hide StartupCycle, RecordOk, TasksOk, Spacing;
    StartupLeavesFine(c, w.desk, env);
  }

  lemma StartupLeavesFine(c: Settings, d: Desk, e: Env)
    requires RecordOk(c, d)
    ensures var (t, act) := StartupCycle(c, d, e);
      && !act.Publish? && act != SendStop
      && (t.control.mode == Target ==> t.control == d.control && t.motion == d.motion)
  {
  }

  lemma ReturnIsBrisk(c: Settings, w: World, ok: bool, env: Env, offset: int)
    requires WorldOk(c, w) && Brisk(c, w, offset) && Timed(w, env)
    requires w.lock.Held? && w.lock.client == TheRunner
    ensures Brisk(c, Releases(c, w, ok, env), offset)
  {
    assert LockOk(w) && PulseOk(w);
    hide RecordOk, TasksOk;
  }

  lemma OutsideIsBrisk(c: Settings, w: World, t: World, offset: int)
    requires Brisk(c, w, offset) && Outside(w, t) && t.runner == w.runner
    ensures Brisk(c, t, offset)
  {
    hide Spacing, Quietly;
  }

  /** The runner lets a pulse go only if its intent has been replaced: its direction has not changed since. */
  lemma AcquireIsBrisk(c: Settings, w: World, client: Client, offset: int)
    requires WorldOk(c, w) && Brisk(c, w, offset)
    ensures Brisk(c, Acquires(w, client), offset)
  {
    assert PulseOk(w);
    hide TasksOk, Spacing;
  }

  lemma RunnerEndsBrisk(c: Settings, w: World, move: Label, offset: int)
    requires WorldOk(c, w) && Brisk(c, w, offset) && w.shutdown != Over
    requires move.RunnerStops? || move in {RunnerFails, EndShutdown, Wire}
    ensures Brisk(c, Step(c, w, move), offset)
  {
    hide Spacing;
  }

  lemma StepIsBrisk(c: Settings, w: World, move: Label, offset: int)
    requires ValidSettings(c) && WorldOk(c, w) && Brisk(c, w, offset)
    requires c.heightStaleMs < Spacing(c, true) && MoveClocked(move, offset)
    ensures Brisk(c, Step(c, w, move), offset)
  {
    hide Brisk, WorldOk, Outside, RunnerCycles, RunnerLocks, AsksTarget, AdjustsTarget, AsksHold, StopFinishes,
      RunnerReturns, Wires, Acquires, RequestStopTask, StopTask, ValidSettings, Spacing;
    var t := Step(c, w, move);
    if w.shutdown == Over { return; }
    match move
    case RunCycle(env) => if w.runner == Waiting && Timed(w, env) { RunnerIsBrisk(c, w, env, offset); }
    case TakeIntentLock(env) => if w.runner == WantsIntentLock && Timed(w, env) { StartupIsBrisk(c, w, env, offset); }
    case SetTarget(target, env) => if t != w { TargetIsOutside(c, w, target, env); OutsideIsBrisk(c, w, t, offset); }
    case AdjustTarget(amount, increase, env) =>
      if t != w { AdjustIsOutside(c, w, amount, increase, env); OutsideIsBrisk(c, w, t, offset); }
    case Hold(way, env) => if t != w { HoldIsOutside(c, w, way, env); OutsideIsBrisk(c, w, t, offset); }
    case Confirm(env) => if t != w { ConfirmIsOutside(c, w, env); OutsideIsBrisk(c, w, t, offset); }
    case GiveUp(env) => if t != w { StopFinishIsOutside(c, w, true, env); OutsideIsBrisk(c, w, t, offset); }
    case Release(ok, env) =>
      if w.lock.Held? && Timed(w, env) {
        if w.lock.client == TheRunner { ReturnIsBrisk(c, w, ok, env, offset); }
        else { OthersRelease(c, w, ok, env); OutsideIsBrisk(c, w, t, offset); }
      }
    case Acquire(client) => AcquireIsBrisk(c, w, client, offset);
    case RunnerStops(_) => RunnerEndsBrisk(c, w, move, offset);
    case RunnerFails => RunnerEndsBrisk(c, w, move, offset);
    case EndShutdown => RunnerEndsBrisk(c, w, move, offset);
    case Wire => RunnerEndsBrisk(c, w, move, offset);
    case _ => ShareIsOutside(c, w, move); RunnerStays(c, w, move); OutsideIsBrisk(c, w, t, offset);
  }

  lemma RunnerStays(c: Settings, w: World, move: Label)
    requires move in {RequestFails, StopTaskFails, StartFails, BeginShutdown} || move.StopMotion? || move.RequestStops?
    ensures Step(c, w, move).runner == w.runner
  {
  }

  /**
   * If a height goes stale before a fine pulse has settled, no decided pulse is ever refused for its
   * direction: in every interleaving the runner starts no cycle in the fine phase.
   */
  lemma {:induction false} FinePhaseNeverWaits(c: Settings, generation: nat, first: Env, labels: seq<Label>, offset: int)
    requires ValidSettings(c) && c.heightStaleMs < Spacing(c, true)
    requires forall i :: 0 <= i < |labels| ==> MoveClocked(labels[i], offset)
    ensures Brisk(c, Run(c, generation, first, labels), offset)
    ensures var w := Run(c, generation, first, labels); w.runner == Waiting ==> forall e :: !FinePast(c, w.desk, e)
  {
    hide Step, WorldOk, Spacing, ValidSettings, MoveClocked;
    if labels == [] {
      BeginIsBrisk(c, generation, first, offset);
    } else {
      var n := |labels| - 1;
      FinePhaseNeverWaits(c, generation, first, labels[..n], offset);
      RecordHolds(c, generation, first, labels[..n]);
      StepIsBrisk(c, Run(c, generation, first, labels[..n]), labels[n], offset);
    }
  }

  lemma BeginIsBrisk(c: Settings, generation: nat, first: Env, offset: int)
    ensures Brisk(c, Begin(generation, first), offset)
  {
  }

  // ---- A run that gets there, with a stale limit that just reaches

  /** A height of 90 cm measured at `seenAt`, everything else as in the other examples. */
  function Seen(mono: int, seenAt: int, height: real): Env {
    Calm(mono, 2).(monitor := Monitor(true, Some(height), Some(seenAt), Some(Live)))
  }

  const OVERSHOT: seq<Label> :=
    [Acquire(TheStopper), Wire, Release(true, Calm(1, 0)), Confirm(Calm(2, 2)),
     SetTarget(91.0, Calm(3, 2)),
     RunCycle(Calm(4, 2)), Acquire(TheRunner), Wire, Release(true, Calm(5, 2)),
     RunCycle(Calm(1005, 2)), Acquire(TheRunner), Wire, Release(true, Calm(1005, 2)),
     RunCycle(Seen(2105, 1005, 90.0))]

  function Past(n: nat): World
    requires n <= |OVERSHOT|
  {
    Run(EXAMPLE, 0, Calm(0, 0), OVERSHOT[..n])
  }

  lemma PastExtends(n: nat)
    requires n < |OVERSHOT|
    ensures Past(n + 1) == Step(EXAMPLE, Past(n), OVERSHOT[n])
  {
    RunExtends(EXAMPLE, 0, Calm(0, 0), OVERSHOT, n);
  }

  /** A target run with nobody else about. */
  predicate Alone(w: World, now: int) {
    && w.lock == Free && w.request == NoRequest && w.stopper == NoStop && w.shutdown == Alive && w.now == now
    && Accepting(w.desk) && w.desk.control.mode == Target && !w.desk.control.awaiting
    && w.desk.control.target == Some(91.0)
    && w.desk.motion.startedAt == Some(3)
    && w.desk.motion.relayBaseline == Some(2) && w.desk.motion.relayLastSeen == Some(2)
  }

  lemma PastStarts()
    ensures Past(4) == Example(4)
  {
    hide Run;
    assert OVERSHOT[..4] == CANCELLED[..4];
  }

  lemma PastMoves()
    ensures var w := Past(5);
      && Alone(w, 3) && w.runner == Waiting && w.desk.control.phase == Some(Continuous)
      && w.desk.motion.lastFineAt.None? && w.desk.motion.firstPulseAt.None?
  {
    hide RunnerCycles, RunnerLocks, StopTask, RequestStopTask, AdjustsTarget, AsksHold, StopFinishes, Releases,
      Wires, Acquires, Run;
    ExampleStarts();
    PastStarts();
    PastExtends(4);
    assert OVERSHOT[4] == SetTarget(91.0, Calm(3, 2));
  }

  lemma PastEnters()
    ensures var w := Past(6);
      && Alone(w, 4) && w.runner == Sending(StopMessage)
      && w.desk.control.phase == Some(Settling) && w.desk.control.direction.None?
      && w.desk.motion.lastFineAt.None? && w.desk.motion.firstPulseAt.None?
  {
    hide RunnerLocks, StopTask, RequestStopTask, AsksTarget, AdjustsTarget, AsksHold, StopFinishes, Releases,
      Wires, Acquires, Run;
    PastMoves();
    PastExtends(5);
    assert OVERSHOT[5] == RunCycle(Calm(4, 2));
  }

  /** What the runner sends goes out at once and without an error. */
  lemma Delivers(c: Settings, w: World, env: Env)
    requires w.lock == Free && w.runner.Sending? && w.shutdown == Alive && Timed(w, env)
    requires w.runner.message.PulseMessage? ==> StillWanted(w.desk, w.runner.message.pulse)
    ensures var m := w.runner.message;
      Step(c, Step(c, Step(c, w, Acquire(TheRunner)), Wire), Release(true, env))
      == RunnerReturns(c, w.(now := env.mono, trace := w.trace + [Sent(m, w.desk.control.generation, TheRunner)]
                                                      + [Published(TheRunner)]), m, true, env)
  {
    hide RunnerCycles, RunnerLocks, StopTask, RequestStopTask, AsksTarget, AdjustsTarget, AsksHold, StopFinishes,
      RunnerReturns, StillWanted;
  }

  lemma PastSettles()
    ensures var w := Past(9);
      && Alone(w, 5) && w.runner == Waiting && w.desk.control.phase == Some(Settling) && w.desk.control.direction.None?
      && w.desk.motion.settleUntil == Some(1005) && w.desk.motion.lastFineAt.None? && w.desk.motion.firstPulseAt.None?
  {
    hide Step, Run;
    PastEnters();
    PastExtends(6);
    PastExtends(7);
    PastExtends(8);
    assert OVERSHOT[6] == Acquire(TheRunner) && OVERSHOT[7] == Wire && OVERSHOT[8] == Release(true, Calm(5, 2));
    Delivers(EXAMPLE, Past(6), Calm(5, 2));
  }

  lemma PastDecides()
    ensures var w := Past(10);
      && Alone(w, 1005) && w.runner.Sending? && w.runner.message.PulseMessage?
      && StillWanted(w.desk, w.runner.message.pulse)
      && w.runner.message.pulse.fineAt == Some(1005) && w.runner.message.pulse.startedAt == 1005
      && w.runner.message.pulse.holdMs == 100 && w.desk.motion.firstPulseAt.None?
  {
    hide RunnerLocks, StopTask, RequestStopTask, AsksTarget, AdjustsTarget, AsksHold, StopFinishes, Releases,
      Wires, Acquires, Run;
    PastSettles();
    PastExtends(9);
    assert OVERSHOT[9] == RunCycle(Calm(1005, 2));
  }

  lemma PastPulses()
    ensures var w := Past(13);
      && Alone(w, 1005) && w.runner == Waiting && w.desk.control.phase == Some(Settling) && w.desk.control.direction.None?
      && w.desk.motion.settleUntil == Some(2105) && w.desk.motion.lastFineAt == Some(1005)
      && w.desk.motion.firstPulseAt == Some(1005)
  {
    hide Step, Run;
    PastDecides();
    PastExtends(10);
    PastExtends(11);
    PastExtends(12);
    assert OVERSHOT[10] == Acquire(TheRunner) && OVERSHOT[11] == Wire && OVERSHOT[12] == Release(true, Calm(1005, 2));
    Delivers(EXAMPLE, Past(10), Calm(1005, 2));
  }

  /**
   * The stale limit is exactly as long as a fine pulse and its settling: the run waits in its fine phase for
   * a newer height, and that height lies beyond the target. Every cycle from then on decides on a pulse down
   * that is refused.
   */
  lemma FinePulseIsRefused()
    ensures ValidSettings(EXAMPLE) && EXAMPLE.heightStaleMs == Spacing(EXAMPLE, true)
    ensures var w, e := Past(14), Seen(2106, 2106, 92.0);
      && Stands(w) && w.runner == Waiting && FinePast(EXAMPLE, w.desk, e) && Timed(w, e)
      && Cycle(EXAMPLE, w.desk, e).1.Publish?
      && !StillWanted(Cycle(EXAMPLE, w.desk, e).0, Cycle(EXAMPLE, w.desk, e).1.pulse)
  {
    hide RunnerLocks, StopTask, RequestStopTask, AsksTarget, AdjustsTarget, AsksHold, StopFinishes, Releases,
      Wires, Acquires, Run;
    PastPulses();
    PastExtends(13);
    assert OVERSHOT[13] == RunCycle(Seen(2105, 1005, 90.0));
  }
}
