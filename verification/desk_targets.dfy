// How many pulses a target run can send, and how far apart they are.
module DeskTargets {
  import opened Policy
  import opened HeightMonitors
  import opened DeskModel
  import opened DeskFacts
  import opened DeskWorld
  import opened DeskRecord
  import opened DeskWire
  import opened DeskPulses

  /** A pulse of a target run: a fine one when `fine`, otherwise a continuous one. */
  predicate IsOf(e: Entry, g: nat, fine: bool) {
    match PulseIn(e)
    case Some(p) => p.control.mode == Target && p.generation == g && p.fineAt.Some? == fine
    case None => false
  }

  function LastOf(trace: seq<Entry>, g: nat, fine: bool): (q: Option<Pulse>)
    ensures q.Some? ==> q.value.fineAt.Some? == fine && q.value.generation == g
  {
    if trace == [] then None
    else
      var n := |trace| - 1;
      if IsOf(trace[n], g, fine) then PulseIn(trace[n]) else LastOf(trace[..n], g, fine)
  }

  function CountOf(trace: seq<Entry>, g: nat, fine: bool): nat {
    if trace == [] then 0
    else
      var n := |trace| - 1;
      CountOf(trace[..n], g, fine) + if IsOf(trace[n], g, fine) then 1 else 0
  }

  /** The least time between two pulses of one kind. */
  function Spacing(c: Settings, fine: bool): nat {
    if fine then c.fineHoldMs + c.fineSettleMs else c.refreshMs
  }

  /** How a pulse stands to the one of its kind and generation before it. */
  predicate Follows(c: Settings, q: Pulse, p: Pulse) {
    && p.startedAt >= q.startedAt + Spacing(c, p.fineAt.Some?)
    && p.motion.startedAt == q.motion.startedAt
    && (p.fineAt.Some? && q.fineAt.Some? ==> p.fineAt.value > q.fineAt.value)
  }

  predicate Begun(p: Pulse) {
    p.motion.startedAt.Some? && p.startedAt >= p.motion.startedAt.value
  }

  predicate InStep(c: Settings, trace: seq<Entry>, p: Pulse) {
    p.control.mode == Target ==>
      && Begun(p)
      && match LastOf(trace, p.generation, p.fineAt.Some?)
         case Some(q) => Follows(c, q, p)
         case None => true
  }

  predicate Spaced(c: Settings, trace: seq<Entry>) {
    trace == [] ||
    var n := |trace| - 1;
    && Spaced(c, trace[..n])
    && (PulseIn(trace[n]).Some? ==> InStep(c, trace[..n], PulseIn(trace[n]).value))
  }

  // ---- Counting

  /** n pulses that are `Spacing` apart take n - 1 times as long. */
  lemma {:induction false} CountTakesTime(c: Settings, trace: seq<Entry>, g: nat, fine: bool)
    requires Spaced(c, trace)
    ensures var q := LastOf(trace, g, fine);
      && (q.None? <==> CountOf(trace, g, fine) == 0)
      && (q.Some? ==>
            && Begun(q.value)
            && (CountOf(trace, g, fine) - 1) * Spacing(c, fine) <= q.value.startedAt - q.value.motion.startedAt.value)
  {
    if trace != [] {
      var n := |trace| - 1;
      CountTakesTime(c, trace[..n], g, fine);
      if IsOf(trace[n], g, fine) {
        var k: int := CountOf(trace[..n], g, fine);
        var s := Spacing(c, fine);
        assert k * s == (k - 1) * s + s;
      }
    }
  }

  lemma DivisionBounds(n: nat, s: nat, t: nat)
    requires s > 0 && n * s <= t
    ensures n <= t / s
  {
    var q := t / s;
    assert n * s - q * s == (n - q) * s;
    if n > q {
      AtLeastOnce(n - q, s);
      assert false;
    }
  }

  lemma AtLeastOnce(k: int, s: nat)
    requires k >= 1
    ensures k * s >= s
  {
  }

  lemma {:induction false} LastIsOnWire(trace: seq<Entry>, g: nat, fine: bool)
    ensures var q := LastOf(trace, g, fine);
      q.Some? ==> q.value.control.mode == Target && exists i :: 0 <= i < |trace| && PulseIn(trace[i]) == q
  {
    if trace != [] {
      var n := |trace| - 1;
      LastIsOnWire(trace[..n], g, fine);
      var q := LastOf(trace, g, fine);
      if q.Some? && !IsOf(trace[n], g, fine) {
        var i :| 0 <= i < n && PulseIn(trace[..n][i]) == q;
        assert PulseIn(trace[i]) == q;
      }
    }
  }

  /** No pulse of a generation that has not been reached is on the wire. */
  lemma {:induction false} LastIsStamped(trace: seq<Entry>, g: nat, fine: bool)
    ensures LastOf(trace, g, fine).Some? ==> g <= Top(trace)
  {
    if trace != [] { LastIsStamped(trace[..|trace| - 1], g, fine); }
  }

  lemma {:induction false} QuietLast(c: Settings, a: seq<Entry>, b: seq<Entry>)
    requires Quietly(a, b)
    ensures Spaced(c, a) ==> Spaced(c, b)
    ensures forall g, fine :: LastOf(b, g, fine) == LastOf(a, g, fine)
    decreases |b|
  {
    var n := |b| - 1;
    if |a| < |b| {
      assert b[..n][..|a|] == a;
      QuietLast(c, a, b[..n]);
      assert !b[n].Sent?;
    } else {
      assert a == b;
    }
  }

  // ---- The invariant

  /** The runner has sent this pulse and waits for the publish to return. */
  predicate InFlight(w: World, q: Pulse) {
    w.runner == Sending(PulseMessage(q)) && w.lock == Held(TheRunner, PulseMessage(q), true)
  }

  /** The fields of the desk know of the last pulse of their generation. */
  predicate Rested(c: Settings, w: World, q: Pulse) {
    var k, m := w.desk.control, w.desk.motion;
    && q.motion.startedAt == m.startedAt
    && (q.fineAt.None? && k.phase == Some(Continuous) ==>
          m.nextRefreshAt.Some? && m.nextRefreshAt.value >= q.startedAt + c.refreshMs)
    && (q.fineAt.Some? ==>
          && m.lastFineAt.Some? && m.lastFineAt.value >= q.fineAt.value
          && (k.phase == Some(Settling) ==>
                m.settleUntil.Some? && m.settleUntil.value >= q.startedAt + Spacing(c, true))
          && (k.phase == Some(Fine) ==> w.now >= q.startedAt + Spacing(c, true)))
  }

  predicate PacedFor(c: Settings, w: World, fine: bool) {
    var k := w.desk.control;
    k.mode == Target ==>
      match LastOf(w.trace, k.generation, fine)
      case None => true
      case Some(q) =>
        && !k.awaiting
        && (w.runner == Sending(StopMessage) ==> !fine)
        && (w.runner.MustStop? || w.runner == Dead
            || (InFlight(w, q) && q.motion.startedAt == w.desk.motion.startedAt)
            || Rested(c, w, q))
  }

  predicate Paced(c: Settings, w: World) {
    && Spaced(c, w.trace)
    && PacedFor(c, w, false)
    && PacedFor(c, w, true)
    && (w.desk.control.mode == Target && w.desk.motion.startedAt.Some? ==> w.desk.motion.startedAt.value <= w.now)
    && (w.runner.Sending? && w.runner.message.PulseMessage? ==> SendsInStep(c, w, w.runner.message.pulse))
  }

  predicate SendsInStep(c: Settings, w: World, p: Pulse) {
    && p.startedAt <= w.now
    && (p.control.mode == Target ==>
          && (p.generation == w.desk.control.generation ==> p.motion.startedAt == w.desk.motion.startedAt)
          && (if InFlight(w, p) then LastOf(w.trace, p.generation, p.fineAt.Some?) == Some(p)
              else InStep(c, w.trace, p)))
  }

  /** What a move of anybody but the runner looks like to the runner. */
  predicate Outside(w: World, t: World) {
    && Quietly(w.trace, t.trace)
    && w.now <= t.now
    && (t.runner == w.runner || (t.runner == Waiting && !(w.lock.Held? && w.lock.client == TheRunner)))
    && (t.lock == w.lock || !(w.lock.Held? && w.lock.client == TheRunner))
    && !(t.lock != w.lock && t.lock.Held? && t.lock.sent)
    && (t.desk.control.mode == NoMotion || t.desk.control.mode == Manual || t.desk.control.mode == Wake
        || (t.desk.control.generation > w.desk.control.generation
            && t.desk.motion.startedAt.Some? && t.desk.motion.startedAt.value <= t.now
            && t.desk.control.phase == Some(Continuous) && t.desk.motion.lastFineAt.None?)
        || (t.desk.control == w.desk.control && t.desk.motion == w.desk.motion))
  }

  lemma OutsideKeepsPace(c: Settings, w: World, t: World)
    requires WorldOk(c, w) && WorldOk(c, t) && WireOk(w) && Paced(c, w) && Outside(w, t)
    requires t.runner == Waiting && t.runner != w.runner ==> w.runner.Sending? && w.runner.message.PulseMessage?
    ensures Paced(c, t)
  {
    QuietLast(c, w.trace, t.trace);
    LastIsStamped(w.trace, t.desk.control.generation, false);
    LastIsStamped(w.trace, t.desk.control.generation, true);
  }

  // ---- The moves of the runner

  /** What one cycle does to a target run that is not waiting for the sensor. */
  predicate CycleShape(d: Desk, e: Env, t: Desk, act: Act) {
    var m, k := t.motion, t.control;
    && !act.Lock? && !act.Nudge?
    && k.mode == Target && !k.awaiting
    && m.startedAt == d.motion.startedAt && m.lastFineAt == d.motion.lastFineAt && m.settleUntil == d.motion.settleUntil
    && (if act == SendStop then k.generation == d.control.generation + 1 && k.phase == Some(Settling)
        else
          && k.generation == d.control.generation
          && ((k == d.control && m.nextRefreshAt == d.motion.nextRefreshAt)
              || (d.control.phase == Some(Settling) && k.phase == Some(Fine)
                  && (m.settleUntil.None? || e.mono >= m.settleUntil.value))))
    && (act.Publish? ==>
          var p := act.pulse;
          && p.startedAt == e.mono && p.motion == m && p.control == k && p.generation == k.generation
          && (p.fineAt.None? ==> k == d.control && k.phase == Some(Continuous) && Due(d.motion, e))
          && (p.fineAt.Some? ==>
                k.phase == Some(Fine) && (m.lastFineAt.None? || p.fineAt.value > m.lastFineAt.value)))
  }

  lemma TargetCycleShape(c: Settings, d: Desk, e: Env)
    requires RecordOk(c, d) && d.control.mode == Target && !d.control.awaiting && HeightUsable(c, HeightIn(c, e))
    ensures CycleShape(d, e, TargetCycle(c, d, e).0, TargetCycle(c, d, e).1)
  {
  }

  lemma CycleOfTarget(c: Settings, d: Desk, e: Env)
    requires RecordOk(c, d) && d.control.mode == Target && !d.control.awaiting
    ensures CycleShape(d, e, Cycle(c, d, e).0, Cycle(c, d, e).1)
  {
    hide TargetCycle, WakeCycle, RelayAnswer;
    RelayAnswerKeeps(c, d, e);
    if HeightUsable(c, HeightIn(c, e)) { TargetCycleShape(c, RelayAnswer(c, d, e).0, e); }
  }

  lemma CyclePacesFor(c: Settings, w: World, env: Env, fine: bool)
    requires WorldOk(c, w) && WireOk(w) && Paced(c, w)
    requires w.runner == Waiting && Timed(w, env)
    requires w.desk.control.mode == Target && !w.desk.control.awaiting
    ensures PacedFor(c, RunnerCycles(c, w, env), fine)
  {
    assert LockOk(w) && Top(w.trace) <= w.desk.control.generation;
    hide Cycle, LastOf, Spaced, Top, WireOk, CountOf, TasksOk, SendsInStep, RecordOk;
    CycleOfTarget(c, w.desk, env);
    LastIsStamped(w.trace, w.desk.control.generation + 1, fine);
    TurnIs(w, Cycle(c, w.desk, env).0, Cycle(c, w.desk, env).1, env);
    hide RunnerActs;
  }

  lemma CyclePacesTarget(c: Settings, w: World, env: Env)
    requires WorldOk(c, w) && WireOk(w) && Paced(c, w)
    requires w.runner == Waiting && Timed(w, env)
    requires w.desk.control.mode == Target && !w.desk.control.awaiting
    ensures Paced(c, RunnerCycles(c, w, env))
  {
    CyclePacesFor(c, w, env, false);
    CyclePacesFor(c, w, env, true);
    assert LockOk(w);
    hide Cycle, LastOf, Spaced, Top, WireOk, CountOf, TasksOk, RecordOk;
    CycleOfTarget(c, w.desk, env);
    TurnIs(w, Cycle(c, w.desk, env).0, Cycle(c, w.desk, env).1, env);
    hide RunnerActs;
  }

  predicate PassesBy(w: World, t: World, env: Env) {
    && Quietly(w.trace, t.trace) && t.lock == w.lock && t.now == env.mono
    && (t.desk.control.mode == Target ==>
          && w.desk.control.mode == Target && t.desk.control.generation == w.desk.control.generation
          && t.desk.motion.startedAt == w.desk.motion.startedAt)
    && (t.runner.Sending? && t.runner.message.PulseMessage? ==>
          t.runner.message.pulse.control.mode != Target && t.runner.message.pulse.startedAt <= env.mono)
  }

  lemma OthersPassBy(c: Settings, w: World, env: Env)
    requires RecordOk(c, w.desk) && w.runner == Waiting
    requires w.desk.control.mode != Target || w.desk.control.awaiting
    ensures PassesBy(w, RunnerCycles(c, w, env), env)
  {
  }

  lemma CyclePacesOthers(c: Settings, w: World, env: Env)
    requires WorldOk(c, w) && Paced(c, w)
    requires w.runner == Waiting && Timed(w, env)
    requires w.desk.control.mode != Target || w.desk.control.awaiting
    ensures Paced(c, RunnerCycles(c, w, env))
  {
    OthersPassBy(c, w, env);
    hide RunnerCycles, LastOf, Spaced, Top, CountOf, TasksOk, RecordOk;
    QuietLast(c, w.trace, RunnerCycles(c, w, env).trace);
  }

  lemma StartupPaces(c: Settings, w: World, env: Env)
    requires WorldOk(c, w) && WireOk(w) && Paced(c, w)
    requires w.runner == WantsIntentLock && Timed(w, env)
    ensures Paced(c, RunnerLocks(c, w, env))
  {
    hide LastOf, Spaced, Top, WireOrdered, CountOf;
    var t := RunnerLocks(c, w, env);
    QuietLast(c, w.trace, t.trace);
  }

  lemma ReturnPaces(c: Settings, w: World, ok: bool, env: Env)
    requires WorldOk(c, w) && PulsesOk(c, w) && Paced(c, w)
    requires w.lock.Held? && w.lock.client == TheRunner && Timed(w, env)
    ensures Paced(c, Releases(c, w, ok, env))
  {
    ReturnPacesFor(c, w, ok, env, false);
    ReturnPacesFor(c, w, ok, env, true);
    hide LastOf, Spaced, CountOf, PacedFor, PulsesOk, WorldOk, SendsInStep;
    QuietLast(c, w.trace, Releases(c, w, ok, env).trace);
  }

  function Noted(c: Settings, d: Desk, message: Message, ok: bool, mono: int): Desk {
    match message
    case PulseMessage(p) => if ok && p.generation == d.control.generation then PulseDone(c, d, p, mono) else d
    case StopMessage => if ok then SettleDone(c, d, mono) else d
    case WakeMessage(_) => d
  }

  /** What the return of a publish does: the runner is done with it, and notes what went out. */
  predicate Returned(c: Settings, w: World, ok: bool, env: Env, t: World)
    requires w.lock.Held?
  {
    && Quietly(w.trace, t.trace) && t.lock == Free && t.now == env.mono
    && (t.runner == Waiting || t.runner.MustStop?)
    && t.desk == Noted(c, w.desk, w.lock.message, ok, env.mono)
    && (!ok && w.lock.message.PulseMessage? && w.lock.message.pulse.generation == w.desk.control.generation ==>
          t.runner.MustStop?)
  }

  lemma ReturnShape(c: Settings, w: World, ok: bool, env: Env)
    requires w.lock.Held? && w.lock.client == TheRunner && (ok ==> w.lock.sent)
    ensures Returned(c, w, ok, env, Releases(c, w, ok, env))
  {
    hide PulseDone, SettleDone;
  }

  lemma ReturnPacesFor(c: Settings, w: World, ok: bool, env: Env, fine: bool)
    requires WorldOk(c, w) && PulsesOk(c, w) && Paced(c, w)
    requires w.lock.Held? && w.lock.client == TheRunner && Timed(w, env)
    ensures PacedFor(c, Releases(c, w, ok, env), fine)
  {
    assert LockOk(w);
    assert PulseOk(w);
    assert w.runner.message.PulseMessage? ==> SentAsDecided(c, w.runner.message.pulse);
    assert ok && !w.lock.sent ==> Releases(c, w, ok, env) == w;
    hide LastOf, Spaced, CountOf, PulsesOk, TasksOk, RecordOk, Justified, Releases, PacedFor, SendsInStep, SentAsDecided;
    if ok ==> w.lock.sent {
      ReturnShape(c, w, ok, env);
      QuietLast(c, w.trace, Releases(c, w, ok, env).trace);
      ReturnedPaces(c, w, ok, env, Releases(c, w, ok, env), fine);
    }
  }

  /** What a target run needs to know of a pulse that was justified. */
  predicate SentAsDecided(c: Settings, p: Pulse) {
    && p.generation == p.control.generation
    && (p.fineAt.Some? ==> p.holdMs == c.fineHoldMs && p.control.phase == Some(Fine))
    && (p.fineAt.None? && p.control.mode == Target ==> p.control.phase == Some(Continuous))
  }

  lemma ReturnedPaces(c: Settings, w: World, ok: bool, env: Env, t: World, fine: bool)
    requires RecordOk(c, w.desk) && PulseOk(w) && Paced(c, w) && w.now <= env.mono
    requires w.lock.Held? && w.lock.client == TheRunner && w.runner == Sending(w.lock.message)
    requires w.runner.message.PulseMessage? ==> SentAsDecided(c, w.runner.message.pulse)
    requires Returned(c, w, ok, env, t) && (ok ==> w.lock.sent)
    requires forall g :: LastOf(t.trace, g, fine) == LastOf(w.trace, g, fine)
    ensures PacedFor(c, t, fine)
  {
    hide LastOf, Spaced, Begun, Quietly;
  }

  lemma WirePaces(c: Settings, w: World)
    requires WorldOk(c, w) && PulsesOk(c, w) && Paced(c, w)
    ensures Paced(c, Wires(w))
  {
    WirePacesFor(c, w, false);
    WirePacesFor(c, w, true);
    WireSends(c, w);
    hide PulsesOk, RecordOk, TasksOk, PacedFor, Spaced, SendsInStep;
  }

  /** The pulse that goes out is in step, and then is the last one of its generation. */
  lemma WireSends(c: Settings, w: World)
    requires WorldOk(c, w) && Paced(c, w)
    ensures var t := Wires(w);
      && Spaced(c, t.trace)
      && (t.runner.Sending? && t.runner.message.PulseMessage? ==> SendsInStep(c, t, t.runner.message.pulse))
  {
    assert LockOk(w);
    hide RecordOk, TasksOk, PacedFor, InStep;
    var t := Wires(w);
    if t != w { assert t.trace[..|w.trace|] == w.trace; }
  }

  lemma WirePacesFor(c: Settings, w: World, fine: bool)
    requires WorldOk(c, w) && PulsesOk(c, w) && Paced(c, w)
    ensures PacedFor(c, Wires(w), fine)
  {
    assert LockOk(w);
    assert PulseOk(w);
    hide CountOf, PulsesOk, RecordOk, TasksOk, Spaced;
    var t := Wires(w);
    if t != w { assert t.trace[..|w.trace|] == w.trace; }
  }

  // ---- The moves of the others

  /** What a request does is outside the runner's business; u is w, maybe with the request on its trace. */
  lemma RequestIsOutside(c: Settings, w: World, u: World, d: Desk, next: Next, goal: Goal, origin: Origin, env: Env)
    requires RecordOk(c, w.desk) && Enters(c, w, d, next, goal, env) && Timed(w, env)
    requires u == w.(trace := u.trace) && Quietly(w.trace, u.trace)
    ensures Outside(w, RequestActs(u, d, next, goal, origin, env))
    ensures RequestActs(u, d, next, goal, origin, env).runner == w.runner
  {
    RequestGrows(u, d, next, goal, origin, env);
    hide RecordOk, Timed;
  }

  lemma TargetIsOutside(c: Settings, w: World, target: real, env: Env)
    requires WorldOk(c, w) && w.shutdown != Over && Timed(w, env)
    ensures Outside(w, AsksTarget(c, w, target, env)) && AsksTarget(c, w, target, env).runner == w.runner
  {
    hide TargetEnters, RequestActs, Outside, RecordOk, Steady, Timed;
    TargetKeeps(c, w.desk, target, env);
    PendingKeeps(c, w.desk);
    StopKeeps(c, w.desk.(pending := None), env);
    var (d, next) := TargetEnters(c, w.desk, target, env);
    var goal, origin := ToTarget(target), Direct(LiveIntent(w.desk));
    RequestIsOutside(c, w, w, d, next, goal, origin, env);
    RequestIsOutside(c, w, Asks(w), d, next, goal, origin, env);
  }

  lemma AdjustIsOutside(c: Settings, w: World, amount: real, increase: bool, env: Env)
    requires WorldOk(c, w) && w.shutdown != Over && Timed(w, env)
    ensures Outside(w, AdjustsTarget(c, w, amount, increase, env))
    ensures AdjustsTarget(c, w, amount, increase, env).runner == w.runner
  {
    hide AsksTarget, RecordOk, TasksOk;
    CancellingKeeps(c, w);
    var t := Asks(w.(desk := w.desk.(pending := None)));
    if t.desk.control.target.Some? {
      TargetIsOutside(c, t, t.desk.control.target.value + if increase then amount else -amount, env);
    }
  }

  lemma HoldIsOutside(c: Settings, w: World, way: Way, env: Env)
    requires WorldOk(c, w) && w.shutdown != Over && Timed(w, env)
    ensures Outside(w, AsksHold(c, w, way, env)) && AsksHold(c, w, way, env).runner == w.runner
  {
    hide HoldEnters, RequestActs, Outside, RecordOk, Steady, Timed;
    HoldKeeps(c, w.desk, way, env);
    PendingKeeps(c, w.desk);
    StopKeeps(c, w.desk.(pending := None), env);
    var (d, next) := HoldEnters(c, w.desk, way, env);
    var goal, origin := ToHold(way), Direct(LiveIntent(w.desk));
    RequestIsOutside(c, w, w, d, next, goal, origin, env);
    RequestIsOutside(c, w, Asks(w), d, next, goal, origin, env);
  }

  lemma StopFinishIsOutside(c: Settings, w: World, failed: bool, env: Env)
    requires WorldOk(c, w) && w.shutdown != Over && w.stopper.Stopping? && Timed(w, env)
    ensures Outside(w, StopFinishes(c, w, failed, env))
    ensures StopFinishes(c, w, failed, env).lock == w.lock && StopFinishes(c, w, failed, env).runner == w.runner
  {
    hide TargetProceeds, HoldProceeds;
    StopFinishGrows(c, w, failed, env);
    if w.stopper.owner == ByRequest && !failed {
      var u := w.(stopper := NoStop, now := env.mono, desk := StopEnds(w.desk, false));
      match w.request.goal
      case ToTarget(target) => TargetProceedKeeps(c, u.desk, target, env);
      case ToHold(way) => HoldProceedKeeps(c, u.desk, way, env);
    }
  }

  lemma RunnerEndsPace(c: Settings, w: World, move: Label)
    requires WorldOk(c, w) && Paced(c, w) && w.shutdown != Over
    requires move.RunnerStops? || move == RunnerFails || move == EndShutdown
    ensures Paced(c, Step(c, w, move))
  {
  }

  lemma ShareIsOutside(c: Settings, w: World, move: Label)
    requires WorldOk(c, w) && w.shutdown != Over
    requires move in {RequestFails, StopTaskFails, StartFails, BeginShutdown} || move.Acquire? || move.StopMotion? || move.RequestStops?
    ensures Outside(w, Step(c, w, move))
  {
  }

  lemma StepPaces(c: Settings, w: World, move: Label)
    requires ValidSettings(c) && WorldOk(c, w) && WireOk(w) && PulsesOk(c, w) && Paced(c, w)
    ensures Paced(c, Step(c, w, move))
  {
    hide Paced, PulsesOk, WireOk, WorldOk, Outside, RunnerCycles, RunnerLocks, AsksTarget, AdjustsTarget, AsksHold,
      StopFinishes, RunnerReturns, Wires, Acquires, RequestStopTask, StopTask, ValidSettings;
    var t := Step(c, w, move);
    if w.shutdown == Over { return; }
    StepKeepsWorld(c, w, move);
    match move
    case RunCycle(env) =>
      if w.runner == Waiting && Timed(w, env) {
        if w.desk.control.mode == Target && !w.desk.control.awaiting { CyclePacesTarget(c, w, env); }
        else { CyclePacesOthers(c, w, env); }
      }
    case TakeIntentLock(env) => if w.runner == WantsIntentLock && Timed(w, env) { StartupPaces(c, w, env); }
    case Wire => WirePaces(c, w);
    case SetTarget(target, env) => if t != w { TargetIsOutside(c, w, target, env); OutsideKeepsPace(c, w, t); }
    case AdjustTarget(amount, increase, env) =>
      if t != w { AdjustIsOutside(c, w, amount, increase, env); OutsideKeepsPace(c, w, t); }
    case Hold(way, env) => if t != w { HoldIsOutside(c, w, way, env); OutsideKeepsPace(c, w, t); }
    case Confirm(env) =>
      if t != w { ConfirmIsOutside(c, w, env); OutsideKeepsPace(c, w, t); }
    case GiveUp(env) => if t != w { StopFinishIsOutside(c, w, true, env); OutsideKeepsPace(c, w, t); }
    case Release(ok, env) =>
      if w.lock.Held? && Timed(w, env) {
        if w.lock.client == TheRunner { ReturnPaces(c, w, ok, env); }
        else { OthersRelease(c, w, ok, env); OutsideKeepsPace(c, w, t); }
      }
    case RunnerStops(_) => RunnerEndsPace(c, w, move);
    case RunnerFails => RunnerEndsPace(c, w, move);
    case EndShutdown => RunnerEndsPace(c, w, move);
    case _ => ShareIsOutside(c, w, move); AcquireRunner(c, w, move); OutsideKeepsPace(c, w, t);
  }

  lemma ConfirmIsOutside(c: Settings, w: World, env: Env)
    requires WorldOk(c, w) && w.shutdown != Over && w.stopper.Stopping? && Timed(w, env)
    ensures var t := StopFinishes(c, w.(trace := w.trace + [Confirmed(w.stopper.baseline, env.relay)]), false, env);
      Outside(w, t) && t.runner == w.runner
  {
    hide StopFinishes, Outside, RecordOk;
    var u := w.(trace := w.trace + [Confirmed(w.stopper.baseline, env.relay)]);
    StopFinishIsOutside(c, u, false, env);
    OutsideExtends(w, u, StopFinishes(c, u, false, env));
  }

  lemma OutsideExtends(w: World, u: World, t: World)
    requires Outside(u, t) && u == w.(trace := u.trace) && Quietly(w.trace, u.trace)
    ensures Outside(w, t)
  {
  }

  lemma OthersRelease(c: Settings, w: World, ok: bool, env: Env)
    requires WorldOk(c, w) && w.shutdown != Over && Timed(w, env)
    requires w.lock.Held? && w.lock.client != TheRunner
    ensures Outside(w, Releases(c, w, ok, env)) && Releases(c, w, ok, env).runner == w.runner
  {
    hide StopFinishes, RecordOk;
    if w.lock.client == TheStopper && !ok && w.stopper.Stopping? {
      StopFinishIsOutside(c, w.(lock := Free, now := env.mono), true, env);
    }
  }

  lemma AcquireRunner(c: Settings, w: World, move: Label)
    requires move in {RequestFails, StopTaskFails, StartFails, BeginShutdown} || move.Acquire? || move.StopMotion? || move.RequestStops?
    ensures var t := Step(c, w, move);
      t.runner == Waiting && t.runner != w.runner ==> w.runner.Sending? && w.runner.message.PulseMessage?
  {
  }

  lemma {:induction false} PaceHolds(c: Settings, generation: nat, first: Env, labels: seq<Label>)
    requires ValidSettings(c)
    ensures Paced(c, Run(c, generation, first, labels))
  {
    if labels != [] {
      var n := |labels| - 1;
      var w := Run(c, generation, first, labels[..n]);
      PaceHolds(c, generation, first, labels[..n]);
      RecordHolds(c, generation, first, labels[..n]);
      WireHolds(c, generation, first, labels[..n]);
      EveryPulseIsJustified(c, generation, first, labels[..n]);
      StepPaces(c, w, labels[n]);
    }
  }

  lemma JustifiedInTime(c: Settings, trace: seq<Entry>, q: Pulse)
    requires JustifiedWire(c, trace) && q.control.mode == Target
    requires exists i :: 0 <= i < |trace| && PulseIn(trace[i]) == Some(q)
    ensures q.motion.startedAt.Some? && q.startedAt - q.motion.startedAt.value <= c.targetTimeoutMs
  {
  }

  lemma SpacedIsBounded(c: Settings, trace: seq<Entry>, g: nat, fine: bool)
    requires ValidSettings(c) && Spaced(c, trace) && JustifiedWire(c, trace)
    ensures CountOf(trace, g, fine) <= c.targetTimeoutMs / Spacing(c, fine) + 1
  {
    var s := Spacing(c, fine);
    assert s > 0;
    hide Spaced, CountOf, LastOf, JustifiedWire, Spacing, ValidSettings;
    CountTakesTime(c, trace, g, fine);
    LastIsOnWire(trace, g, fine);
    DivisionBounds(0, s, c.targetTimeoutMs);
    var q := LastOf(trace, g, fine);
    if q.Some? {
      JustifiedInTime(c, trace, q.value);
      DivisionBounds(CountOf(trace, g, fine) - 1, s, c.targetTimeoutMs);
    }
  }

  ghost predicate TargetsBounded(c: Settings, trace: seq<Entry>) {
    Spacing(c, false) > 0 && Spacing(c, true) > 0 &&
    forall g: nat, fine: bool :: CountOf(trace, g, fine) <= c.targetTimeoutMs / Spacing(c, fine) + 1
  }

  /**
   * In every interleaving a target intent sends at most floor(T / refresh) + 1 continuous pulses, and
   * at most floor(T / (fine hold + settle)) + 1 fine ones, T being the target timeout.
   */
  lemma {:induction false} TargetRunIsBounded(c: Settings, generation: nat, first: Env, labels: seq<Label>)
    requires ValidSettings(c)
    ensures TargetsBounded(c, Run(c, generation, first, labels).trace)
  {
    hide Run, Justified, Spaced;
    PaceHolds(c, generation, first, labels);
    EveryPulseIsJustified(c, generation, first, labels);
    var trace := Run(c, generation, first, labels).trace;
    forall g: nat, fine: bool ensures CountOf(trace, g, fine) <= c.targetTimeoutMs / Spacing(c, fine) + 1 {
      SpacedIsBounded(c, trace, g, fine);
    }
  }

  /** Each fine pulse of a generation was decided on a newer height than every one before it. */
  lemma {:induction false} FineHeightsIncrease(c: Settings, trace: seq<Entry>, i: nat, j: nat, g: nat)
    requires Spaced(c, trace) && i < j < |trace| && IsOf(trace[i], g, true) && IsOf(trace[j], g, true)
    ensures PulseIn(trace[i]).value.fineAt.value < PulseIn(trace[j]).value.fineAt.value
  {
    var n := |trace| - 1;
    if j < n {
      FineHeightsIncrease(c, trace[..n], i, j, g);
    } else {
      LastBounds(c, trace[..n], i, g);
    }
  }

  ghost predicate FineHeightsRise(trace: seq<Entry>) {
    forall i, j, g :: 0 <= i < j < |trace| && IsOf(trace[i], g, true) && IsOf(trace[j], g, true) ==>
      && PulseIn(trace[i]).value.fineAt.value < PulseIn(trace[j]).value.fineAt.value
      && PulseIn(trace[j]).value.fineAt == PulseIn(trace[j]).value.env.monitor.observedAt
  }

  /** So in every interleaving no fine pulse of an intent is sent twice for one height. */
  lemma {:induction false} FinePulsesUseNewHeights(c: Settings, generation: nat, first: Env, labels: seq<Label>)
    requires ValidSettings(c)
    ensures FineHeightsRise(Run(c, generation, first, labels).trace)
  {
    hide Justified, Spaced, Run;
    PaceHolds(c, generation, first, labels);
    EveryPulseIsJustified(c, generation, first, labels);
    var trace := Run(c, generation, first, labels).trace;
    forall i, j, g | 0 <= i < j < |trace| && IsOf(trace[i], g, true) && IsOf(trace[j], g, true)
      ensures PulseIn(trace[i]).value.fineAt.value < PulseIn(trace[j]).value.fineAt.value
      ensures PulseIn(trace[j]).value.fineAt == PulseIn(trace[j]).value.env.monitor.observedAt
    {
      FineHeightsIncrease(c, trace, i, j, g);
      FineCarriesItsHeight(c, PulseIn(trace[j]).value);
    }
  }

  lemma FineCarriesItsHeight(c: Settings, p: Pulse)
    requires Justified(c, p) && p.fineAt.Some?
    ensures p.fineAt == p.env.monitor.observedAt
  {
  }

  lemma {:induction false} LastBounds(c: Settings, trace: seq<Entry>, i: nat, g: nat)
    requires Spaced(c, trace) && i < |trace| && IsOf(trace[i], g, true)
    ensures LastOf(trace, g, true).Some?
    ensures PulseIn(trace[i]).value.fineAt.value <= LastOf(trace, g, true).value.fineAt.value
  {
    var n := |trace| - 1;
    if i < n { LastBounds(c, trace[..n], i, g); }
  }
}
