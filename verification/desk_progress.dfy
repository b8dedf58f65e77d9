// What must happen on the way from a decision to the wire: what the moves of the interleavings have to
// do when they may.
module DeskProgress {
  import opened Policy
  import opened HeightMonitors
  import opened DeskModel
  import opened DeskWorld
  import opened DeskRecord
  import opened DeskFacts
  import opened DeskAnswers
  import opened DeskRequests
  import DeadMan

  /** The controller lives, and these are readings it may make next. */
  predicate Acting(c: Settings, w: World, env: Env) {
    ValidSettings(c) && WorldOk(c, w) && w.shutdown != Over && w.now <= env.mono && Consistent(env.monitor)
  }

  // ---- Sending

  /** The client gets the lock, its message goes out, and the publish succeeds. */
  function Sends(c: Settings, w: World, client: Client, env: Env): World {
    Step(c, Step(c, Step(c, w, Acquire(client)), Wire), Release(true, env))
  }

  /** On the wire and published, at the generation of this moment. */
  predicate WentOut(w: World, message: Message, client: Client, t: World) {
    t.trace == w.trace + [Sent(message, w.desk.control.generation, client), Published(client)] && t.lock == Free
  }

  /**
   * A decided pulse goes out if its generation is the current one and the intent still moves its way; the
   * record then notes it. Otherwise it is dropped, and nothing else changes.
   */
  lemma PulseGoesOut(c: Settings, w: World, p: Pulse, env: Env)
    requires Acting(c, w, env) && w.lock == Free && w.runner == Sending(PulseMessage(p))
    ensures if p.generation == w.desk.control.generation && w.desk.control.direction == Some(p.way) then
              var t := Sends(c, w, TheRunner, env);
              WentOut(w, PulseMessage(p), TheRunner, t) && PulseNoted(c, w.desk, p, env.mono, t.desk)
              && t == w.(desk := t.desk, runner := Waiting, now := env.mono, trace := t.trace)
            else Step(c, w, Acquire(TheRunner)) == w.(runner := Waiting)
  {
    PulseIsNoted(c, w.desk, p, env.mono);
    hide PulseDone, PulseNoted, TasksOk, ValidSettings, Consistent;
  }

  /** A pulse of the current generation that could not be published stops the motion. */
  lemma LostPulseStops(c: Settings, w: World, p: Pulse, env: Env)
    requires Acting(c, w, env) && w.lock.Held? && w.lock.client == TheRunner && w.lock.message == PulseMessage(p)
    ensures var t := Step(c, w, Release(false, env));
      t == w.(lock := Free, now := env.mono,
              runner := if p.generation == w.desk.control.generation then MustStop(false, true) else Waiting)
  {
  }

  /** The STOP between the phases of a target run: the settling time counts from its publish. */
  lemma SettlingStopGoesOut(c: Settings, w: World, env: Env)
    requires Acting(c, w, env) && w.lock == Free && w.runner == Sending(StopMessage)
    ensures var t := Sends(c, w, TheRunner, env);
      && WentOut(w, StopMessage, TheRunner, t)
      && t.desk == w.desk.(motion := w.desk.motion.(settleUntil := Some(env.mono + c.fineSettleMs)))
      && t == w.(desk := t.desk, runner := Waiting, now := env.mono, trace := t.trace)
  {
    hide WorldOk, ValidSettings, Consistent, StopFinishes;
  }

  lemma WakeGoesOut(c: Settings, w: World, order: WakeOrder, env: Env)
    requires Acting(c, w, env) && w.lock == Free
    ensures w.request == Ordering(order) ==>
      var t := Sends(c, w, TheRequest, env);
      WentOut(w, WakeMessage(order), TheRequest, t)
      && t == w.(request := NoRequest, now := env.mono, trace := t.trace)
    ensures w.runner == Sending(WakeMessage(order)) ==>
      var t := Sends(c, w, TheRunner, env);
      WentOut(w, WakeMessage(order), TheRunner, t)
      && t == w.(runner := Waiting, now := env.mono, trace := t.trace)
  {
    hide WorldOk, ValidSettings, Consistent, StopFinishes;
  }

  // ---- Stopping

  /** A stop task begins its STOP unless one is under way. */
  lemma StopTasksBegin(c: Settings, w: World, env: Env)
    requires Acting(c, w, env)
    ensures w.runner.MustStop? ==>
      var t := Step(c, w, RunnerStops(env));
      && (if w.desk.stopping then t.desk == w.desk && t.stopper == w.stopper
          else StopBegun(w.desk, env, t.desk)
               && t.stopper == Stopping(ByTask(w.runner.blamed), env.relay.receivedAt, false))
      && t == w.(desk := t.desk, stopper := t.stopper, now := env.mono,
                 runner := if w.runner.last then Dead else Waiting)
    ensures w.request.Halting? ==>
      var t := Step(c, w, RequestStops(env));
      && (if w.desk.stopping then t.desk == w.desk && t.stopper == w.stopper
          else StopBegun(w.desk, env, t.desk)
               && t.stopper == Stopping(ByTask(w.request.blamed), env.relay.receivedAt, false))
      && t == w.(desk := t.desk, stopper := t.stopper, now := env.mono,
                 request := if w.desk.stopping then NoRequest else Halted)
  {
  }

  /** stop_motion always comes to a stop task once it has the intent lock. */
  lemma StopRequestHalts(c: Settings, w: World, env: Env)
    requires Acting(c, w, env) && w.request == NoRequest
    requires !(w.runner.Sending? && w.runner.message.WakeMessage?)
    ensures Step(c, w, StopMotion(env)) == w.(now := env.mono, request := Halting(false))
  {
  }

  /** The STOP of a stop in progress goes out, and the wait for its report begins. */
  lemma StopGoesOut(c: Settings, w: World, env: Env)
    requires Acting(c, w, env) && w.lock == Free && w.stopper.Stopping? && !w.stopper.confirming
    ensures var t := Sends(c, w, TheStopper, env);
      && WentOut(w, StopMessage, TheStopper, t)
      && t == w.(stopper := w.stopper.(confirming := true), now := env.mono, trace := t.trace)
  {
    hide WorldOk, ValidSettings, Consistent, StopFinishes;
  }

  /** What becomes of the goal of a request after its hand-over. */
  predicate GoalFollows(c: Settings, d: Desk, goal: Goal, env: Env, t: Desk, next: Next) {
    match goal
    case ToHold(way) => HoldFollows(c, d, way, env, t, next)
    case ToTarget(target) => TargetFollows(c, d, target, env, t, next)
  }

  /** The live intent has been stopped: the new one is installed exactly when it is admitted now. */
  ghost predicate HandedOver(c: Settings, d: Desk, goal: Goal, origin: Origin, trace: seq<Entry>, env: Env, t: World) {
    exists next: Next ::
      && GoalFollows(c, d, goal, env, t.desk, next)
      && (if next.Go? || next.SendWake? then
            && |t.trace| > |trace| && t.trace[|t.trace| - 1] == Installed(t.desk.control, origin)
            && t.request == (if next.SendWake? then Ordering(next.order) else NoRequest)
          else t.request == (if next == Reached then Halting(false) else NoRequest))
  }

  lemma ConfirmFinishes(c: Settings, w: World, env: Env)
    requires Acting(c, w, env) && w.stopper.Stopping? && w.stopper.confirming
    ensures Step(c, w, Confirm(env)) ==
      if NewStop(w.stopper.baseline, env.relay)
      then StopFinishes(c, w.(trace := w.trace + [Confirmed(w.stopper.baseline, env.relay)]), false, env) else w
  {
    RelayTestsAreFacts(c, w.desk, env);
    hide StopFinishes, WorldOk, ValidSettings, NewStop, FreshStop;
  }

  /** The confirmed STOP of a hand-over. */
  lemma HandOverEnds(c: Settings, w: World, env: Env)
    requires Acting(c, w, env) && w.stopper.Stopping? && w.stopper.confirming && w.stopper.owner == ByRequest
    requires NewStop(w.stopper.baseline, env.relay)
    ensures w.request.HandingOver?
    ensures var t := Step(c, w, Confirm(env));
      var stopped := w.desk.(stopping := false, control := w.desk.control.(public := IsStopped));
      && t.stopper == NoStop && !t.desk.stopping && t.now == env.mono
      && w.trace + [Confirmed(w.stopper.baseline, env.relay)] <= t.trace
      && HandedOver(c, stopped, w.request.goal, After(w.request.replaced, w.request.since),
                    w.trace + [Confirmed(w.stopper.baseline, env.relay)], env, t)
  {
    var stopped := w.desk.(stopping := false, control := w.desk.control.(public := IsStopped));
    ConfirmFinishes(c, w, env);
    assert !stopped.control.awaiting;
    var u := w.(desk := stopped, stopper := NoStop, now := env.mono,
                trace := w.trace + [Confirmed(w.stopper.baseline, env.relay)]);
    hide Step, RecordOk, NewStop, RequestProceeds, HandedOver, ValidSettings, LockOk, PulseOk;
    RequestEnds(c, u, env);
  }

  lemma RequestEnds(c: Settings, u: World, env: Env)
    requires ValidSettings(c) && Consistent(env.monitor) && u.request.HandingOver? && !u.desk.control.awaiting
    requires u.request.goal.ToTarget? ==> c.opMin <= u.request.goal.target <= c.opMax
    requires u.trace != [] && !u.desk.stopping
    ensures var t := RequestProceeds(c, u, env);
      && t.stopper == u.stopper && !t.desk.stopping && t.now == env.mono
      && u.trace <= t.trace
      && HandedOver(c, u.desk, u.request.goal, After(u.request.replaced, u.request.since), u.trace, env, t)
  {
    var t := RequestProceeds(c, u, env);
    match u.request.goal
    case ToHold(way) =>
      var (d, next) := HoldProceeds(c, u.desk, way, env);
      HoldRequestIsExact(c, u.desk, way, env);
      assert !d.stopping && next != HandOver && next != Halt;
      hide HoldProceeds, HoldFollows, ValidSettings;
      assert GoalFollows(c, u.desk, u.request.goal, env, t.desk, next);
    case ToTarget(target) =>
      var (d, next) := TargetProceeds(c, u.desk, target, env);
      TargetFollowsExactly(c, u.desk, target, env);
      assert !d.stopping && next != HandOver && next != Halt;
      hide TargetProceeds, TargetFollows, ValidSettings;
      assert GoalFollows(c, u.desk, u.request.goal, env, t.desk, next);
  }

  /** Only a new report of STOP ends the wait; a stop task then lowers the flag and frees who waits for it. */
  lemma StopIsConfirmed(c: Settings, w: World, env: Env)
    requires Acting(c, w, env) && w.stopper.Stopping? && w.stopper.confirming
    ensures var t := Step(c, w, Confirm(env));
      if !NewStop(w.stopper.baseline, env.relay) then t == w
      else
        && t.stopper == NoStop && !t.desk.stopping && t.now == env.mono
        && w.trace + [Confirmed(w.stopper.baseline, env.relay)] <= t.trace
        && (w.stopper.owner.ByTask? ==>
              && t.desk == w.desk.(stopping := false,
                                   control := w.desk.control.(public := if w.stopper.owner.blamed then InError else IsStopped))
              && t.request == if w.request == Halted then NoRequest else w.request)
        && (w.stopper.owner == ByStart ==> StartFollows(c, w.desk, false, env, t.desk))
  {
    ConfirmFinishes(c, w, env);
    if NewStop(w.stopper.baseline, env.relay) {
      StartIsExact(c, w.desk, false, env);
      if w.stopper.owner == ByRequest { HandOverEnds(c, w, env); }
    }
    hide Step, StartEnds, StartFollows, NewStop, RecordOk, RequestProceeds, HandedOver;
  }

  // ---- Cycles and requests

  /** A cycle answers as it must, and the runner sets about what it has answered. */
  lemma CycleIsCarriedOut(c: Settings, w: World, env: Env)
    requires Acting(c, w, env) && w.runner == Waiting
    ensures var (d, act) := Cycle(c, w.desk, env);
      var t := Step(c, w, RunCycle(env));
      && CycleAnswers(c, w.desk, env, d, act)
      && t == w.(desk := d, now := env.mono, runner := t.runner, trace := t.trace)
      && t.trace == (if w.desk.control.awaiting && !d.control.awaiting && d.control.mode != NoMotion
                     then w.trace + [Activated(w.desk.control.generation, env)] else w.trace)
      && match act
         case Rest => t.runner == Waiting
         case Stop(blamed) => t.runner == MustStop(false, blamed)
         case Publish(pulse) => t.runner == Sending(PulseMessage(pulse))
         case SendStop => t.runner == Sending(StopMessage)
         case Lock => t.runner == WantsIntentLock
         case Nudge(_) => false
  {
    CycleIsExact(c, w.desk, env);
    CycleKeeps(c, w.desk, env);
    hide Cycle, CycleAnswers, RecordOk, TasksOk;
  }

  /** So does the part under the intent lock; a startup WAKE is put on the trace as a new intent. */
  lemma StartupIsCarriedOut(c: Settings, w: World, env: Env)
    requires Acting(c, w, env) && w.runner == WantsIntentLock && w.request == NoRequest
    ensures var (d, act) := StartupCycle(c, w.desk, env);
      var t := Step(c, w, TakeIntentLock(env));
      && StartupAnswers(c, w.desk, env, d, act)
      && t.desk == d && t.now == env.mono && t.lock == w.lock && t.request == w.request && t.stopper == w.stopper
      && match act
         case Rest => t.runner == Waiting
         case Stop(blamed) => t.runner == MustStop(false, blamed)
         case Nudge(order) =>
           t.runner == Sending(WakeMessage(order)) && t.trace == w.trace + [Installed(d.control, Startup)]
         case _ => false
  {
    StartupIsExact(c, w.desk, env);
    hide StartupAnswers, Watch, RecordOk, TasksOk, HeightIn, RelayAvailable;
  }

  /** A request of a user has the intent lock to itself. */
  predicate Heard(w: World) {
    w.request == NoRequest && !(w.runner.Sending? && w.runner.message.WakeMessage?)
  }

  /** What the trace says of a request first: that it came, if it is valid, and that it holds the motion. */
  function Heading(w: World, valid: bool, d: Desk, env: Env): seq<Entry> {
    (if valid then w.trace + [Asked(w.desk.control.generation)] else w.trace)
    + (if d.motion.lastHoldAt == Some(env.mono) then [HoldAt(env.mono)] else [])
  }

  /** What a request sets about once it has answered. */
  predicate TakenUp(w: World, heading: seq<Entry>, goal: Goal, d: Desk, next: Next, env: Env, t: World) {
    var live := if w.desk.control.mode == NoMotion then None else Some(w.desk.control.generation);
    && t.desk == d && t.now == env.mono && t.lock == w.lock && t.runner == w.runner && t.shutdown == w.shutdown
    && (next != HandOver ==> t.stopper == w.stopper)
    && match next
       case Return => t.request == NoRequest && t.trace == heading
       case Refuse => t.request == NoRequest && t.trace == heading
       case Reached => t.request == Halting(false) && t.trace == heading
       case Halt => t.request == Halting(false) && t.trace == heading + [Invalid(w.desk.control.generation)]
       case HandOver =>
         && t.request == HandingOver(goal, live, |heading|)
         && t.trace == heading + [Replacing(live, env.relay)]
         && t.stopper == Stopping(ByRequest, env.relay.receivedAt, false)
       case SendWake(order) =>
         t.request == Ordering(order) && t.trace == heading + [Installed(d.control, Direct(live))]
       case Go => t.request == NoRequest && t.trace == heading + [Installed(d.control, Direct(live))]
  }

  lemma ActsTakeUp(w: World, asked: World, goal: Goal, d: Desk, next: Next, env: Env)
    requires asked == w.(trace := asked.trace)
    ensures var heading := asked.trace + if d.motion.lastHoldAt == Some(env.mono) then [HoldAt(env.mono)] else [];
      TakenUp(w, heading, goal, d, next, env, RequestActs(asked, d, next, goal, Direct(LiveIntent(w.desk)), env))
  {
    assert asked.trace + [] == asked.trace;
  }

  lemma HoldIsCarriedOut(c: Settings, w: World, way: Way, env: Env)
    requires Acting(c, w, env) && Heard(w)
    ensures var (d, next) := HoldEnters(c, w.desk, way, env);
      && HoldServed(c, w.desk, way, env, d, next)
      && TakenUp(w, Heading(w, InService(w.desk), d, env), ToHold(way), d, next, env, Step(c, w, Hold(way, env)))
  {
    HoldRequestIsExact(c, w.desk, way, env);
    var (d, next) := HoldEnters(c, w.desk, way, env);
    var asked := if InService(w.desk) then w.(trace := w.trace + [Asked(w.desk.control.generation)]) else w;
    ActsTakeUp(w, asked, ToHold(way), d, next, env);
    hide HoldEnters, HoldServed, WorldOk, ValidSettings, RequestActs, TakenUp;
  }

  lemma TargetIsCarriedOut(c: Settings, w: World, target: real, env: Env)
    requires Acting(c, w, env) && Heard(w)
    ensures var (d, next) := TargetEnters(c, w.desk, target, env);
      && TargetServed(c, w.desk, target, env, d, next)
      && TakenUp(w, Heading(w, c.opMin <= target <= c.opMax, d, env), ToTarget(target), d, next, env,
                 Step(c, w, SetTarget(target, env)))
  {
    TargetRequestIsExact(c, w.desk, target, env);
    var (d, next) := TargetEnters(c, w.desk, target, env);
    var valid := c.opMin <= target <= c.opMax;
    var asked := if valid then w.(trace := w.trace + [Asked(w.desk.control.generation)]) else w;
    ActsTakeUp(w, asked, ToTarget(target), d, next, env);
    hide TargetEnters, TargetServed, WorldOk, ValidSettings, RequestActs, TakenUp;
  }

  /**
   * An adjustment that is not positive fails like an invalid target; without a target it only ends the
   * startup WAKE; otherwise it asks for the target moved by the amount.
   */
  lemma AdjustIsCarriedOut(c: Settings, w: World, amount: real, increase: bool, env: Env)
    requires Acting(c, w, env) && Heard(w)
    ensures var t := Step(c, w, AdjustTarget(amount, increase, env));
      var asked := w.(desk := w.desk.(pending := None), trace := w.trace + [Asked(w.desk.control.generation)]);
      if amount <= 0.0 && w.desk.control.mode == NoMotion then t == w.(now := env.mono)
      else if amount <= 0.0 then
        t == w.(now := env.mono, request := Halting(false), trace := w.trace + [Invalid(w.desk.control.generation)])
      else if w.desk.control.mode != Target then t == asked
      else
        var target := w.desk.control.target.value;
        t == Step(c, asked, SetTarget(if increase then target + amount else target - amount, env))
  {
    hide AsksTarget, TasksOk, ValidSettings;
  }

  /**
   * A further HOLD of the intent in effect, admissible or still waiting for the sensor, moves the time of
   * the last HOLD, notes it, and does nothing else.
   */
  lemma HoldIsRenewed(c: Settings, w: World, way: Way, env: Env)
    requires Acting(c, w, env) && Heard(w)
    requires w.desk.control.mode == Manual && w.desk.control.direction == Some(way)
    requires w.desk.control.awaiting || (Sighted(c, env) && Room(c, env.monitor.height.value, way))
    ensures Step(c, w, Hold(way, env)) ==
      w.(desk := w.desk.(motion := w.desk.motion.(lastHoldAt := Some(env.mono))), now := env.mono,
         trace := w.trace + [Asked(w.desk.control.generation), HoldAt(env.mono)])
  {
    HoldIsCarriedOut(c, w, way, env);
    hide HoldEnters, ValidSettings, Step, LockOk, PulseOk;
  }

  /**
   * In every reachable state of a HOLD a cycle that sees where the desk is stops for the watchdog if and
   * only if every HOLD that took effect is longer ago than the watchdog allows; and while one is not, no
   * cycle does.
   */
  lemma {:induction false} WatchdogIsExact(c: Settings, generation: nat, first: Env, labels: seq<Label>, env: Env)
    requires ValidSettings(c) && Consistent(env.monitor)
    requires var w := Run(c, generation, first, labels);
      w.runner == Waiting && w.shutdown != Over && w.now <= env.mono && w.desk.control.mode == Manual
    ensures var w, t := Run(c, generation, first, labels), Run(c, generation, first, labels + [RunCycle(env)]);
      var gone := forall e :: e in w.trace && e.HoldAt? ==> c.watchdogMs < env.mono - e.mono;
      && (!w.desk.control.awaiting && Sighted(c, env) ==> (t.runner == MustStop(false, false) <==> gone))
      && (!gone ==> t.runner != MustStop(false, false))
  {
    var w := Run(c, generation, first, labels);
    assert (labels + [RunCycle(env)])[..|labels|] == labels;
    RecordHolds(c, generation, first, labels);
    DeadMan.HoldsAreNoted(c, generation, first, labels);
    CycleIsCarriedOut(c, w, env);
    assert w.desk.motion.lastHoldAt.Some? && HoldAt(w.desk.motion.lastHoldAt.value) in w.trace;
    hide Run, Step, Cycle, TasksOk, ValidSettings, Sighted, Troubled, Room;
  }

  /** stop() ends the intent at once; its STOP goes out, and the runner is dead when it returns. */
  lemma ShutdownGoesOut(c: Settings, w: World, env: Env)
    requires Acting(c, w, env) && w.lock == Free
    ensures w.shutdown == Alive ==>
      var t := Step(c, w, BeginShutdown);
      t == w.(desk := t.desk, shutdown := Closing)
      && Ended(w.desk.(closing := true, stopping := true), IsStopped, t.desk)
    ensures w.shutdown == Closing ==>
      var t := Sends(c, w, TheShutdown, env);
      WentOut(w, StopMessage, TheShutdown, t) && t == w.(shutdown := Closed(true), now := env.mono, trace := t.trace)
    ensures w.shutdown.Closed? ==>
      var t := Step(c, w, EndShutdown);
      && t.runner == Dead && t.shutdown == Over && !t.desk.running && !t.desk.stopping
      && t.desk.control == w.desk.control.(public := if w.shutdown.ok then IsStopped else InError)
  {
    CloseIsExact(w.desk, false);
    hide WorldOk, ValidSettings, Consistent, StopFinishes;
  }

  // ---- From the request to the wire

  /** The cycle after a request, and the pulse it decides on goes out. */
  function CycleAndSend(c: Settings, w: World, cycle: Env, sent: Env): World {
    Sends(c, Step(c, w, RunCycle(cycle)), TheRunner, sent)
  }

  /** One more pulse is on the wire, published, of this generation, in this direction, for this long. */
  ghost predicate OnePulseMore(before: seq<Entry>, after: seq<Entry>, g: nat, way: Way, holdMs: nat) {
    exists p: Pulse :: p.generation == g && p.way == way && p.holdMs == holdMs
      && after == before + [Sent(PulseMessage(p), g, TheRunner), Published(TheRunner)]
  }

  lemma FreshPulseGoesOut(c: Settings, w: World, way: Way, holdMs: nat, cycle: Env, sent: Env)
    requires Acting(c, w, cycle) && w.lock == Free && w.runner == Waiting && cycle.mono <= sent.mono
    requires Consistent(sent.monitor)
    requires var (d, act) := Cycle(c, w.desk, cycle);
      d.control == w.desk.control && d.control.direction == Some(way) && Decided(d, cycle, way, holdMs, None, act)
    ensures var t := CycleAndSend(c, w, cycle, sent);
      && OnePulseMore(w.trace, t.trace, w.desk.control.generation, way, holdMs) && t.runner == Waiting
      && t.desk.control == w.desk.control && t.desk.motion.nextRefreshAt == Some(cycle.mono + c.refreshMs)
  {
    hide Step, Sends, Cycle, CycleAnswers, RecordOk, TasksOk, ValidSettings;
    CycleIsCarriedOut(c, w, cycle);
    StepKeepsWorld(c, w, RunCycle(cycle));
    PulseGoesOut(c, Step(c, w, RunCycle(cycle)), Cycle(c, w.desk, cycle).1.pulse, sent);
  }

  /** A request of an idle desk that may move at once has installed its intent, and the runner is free. */
  predicate Started(c: Settings, w: World, entries: seq<Entry>, env: Env, u: World) {
    && WorldOk(c, u) && u.shutdown != Over && u.now == env.mono && u.lock == Free && u.runner == Waiting
    && u.desk.control.generation == w.desk.control.generation + 1
    && u.trace == w.trace + entries + [Installed(u.desk.control, Direct(None))]
  }

  lemma HoldStarts(c: Settings, w: World, way: Way, env: Env)
    requires Acting(c, w, env) && Heard(w) && w.lock == Free && w.runner == Waiting
    requires InService(w.desk) && w.desk.control.mode == NoMotion && !Running(env)
    requires Sighted(c, env) && Room(c, env.monitor.height.value, way)
    ensures var u := Step(c, w, Hold(way, env));
      Started(c, w, [Asked(w.desk.control.generation), HoldAt(env.mono)], env, u) && HoldBegun(w.desk.(pending := None), way, env, u.desk)
  {
    assert !w.desk.control.awaiting;
    HoldIsCarriedOut(c, w, way, env);
    StepKeepsWorld(c, w, Hold(way, env));
    hide Step, HoldEnters, RecordOk, TasksOk, ValidSettings, LiveHeight, LiveRelay, Room;
  }

  lemma TargetStarts(c: Settings, w: World, target: real, env: Env)
    requires Acting(c, w, env) && Heard(w) && w.lock == Free && w.runner == Waiting
    requires InService(w.desk) && w.desk.control.mode == NoMotion && Resting(env) && c.opMin <= target <= c.opMax
    requires Sighted(c, env) && !Near(target, env.monitor.height.value, c.tolerance)
    ensures var u := Step(c, w, SetTarget(target, env));
      && Started(c, w, [Asked(w.desk.control.generation)], env, u)
      && TargetBegun(w.desk.(pending := None), target, if target > env.monitor.height.value then Up else Down, env, u.desk)
  {
    assert !w.desk.control.awaiting;
    TargetIsCarriedOut(c, w, target, env);
    StepKeepsWorld(c, w, SetTarget(target, env));
    hide Step, TargetEnters, RecordOk, TasksOk, ValidSettings, LiveHeight, LiveRelay, Near;
  }

  lemma FreshHoldPublishes(c: Settings, d: Desk, u: Desk, way: Way, asked: Env, cycle: Env)
    requires ValidSettings(c) && RecordOk(c, u) && InService(d) && HoldBegun(d, way, asked, u)
    requires asked.mono <= cycle.mono <= asked.mono + c.watchdogMs && Consistent(cycle.monitor)
    requires Sighted(c, cycle) && Room(c, cycle.monitor.height.value, way)
    requires cycle.relay.state != (if way == Up then Some(RelayDown) else Some(RelayUp))
    ensures var (t, act) := Cycle(c, u, cycle);
      t.control == u.control && Decided(t, cycle, way, c.manualHoldMs, None, act)
  {
    CycleIsExact(c, u, cycle);
    hide Cycle, ValidSettings, Sighted, Room;
  }

  /**
   * A HOLD of an idle desk, with a live height, a live relay and room to move, is on the wire after one
   * cycle that still sees so, unless the relay reports the other direction by then.
   */
  lemma HoldMovesTheDesk(c: Settings, w: World, way: Way, asked: Env, cycle: Env, sent: Env)
    requires Acting(c, w, asked) && Heard(w) && w.lock == Free && w.runner == Waiting
    requires InService(w.desk) && w.desk.control.mode == NoMotion && !Running(asked)
    requires Sighted(c, asked) && Room(c, asked.monitor.height.value, way)
    requires Consistent(cycle.monitor) && Consistent(sent.monitor)
    requires asked.mono <= cycle.mono <= asked.mono + c.watchdogMs && cycle.mono <= sent.mono
    requires Sighted(c, cycle) && Room(c, cycle.monitor.height.value, way)
    requires cycle.relay.state != (if way == Up then Some(RelayDown) else Some(RelayUp))
    ensures var t := CycleAndSend(c, Step(c, w, Hold(way, asked)), cycle, sent);
      var g := w.desk.control.generation;
      && OnePulseMore(w.trace + [Asked(g), HoldAt(asked.mono)] + [Installed(t.desk.control, Direct(None))], t.trace,
                      g + 1, way, c.manualHoldMs)
      && t.desk.control.mode == Manual && t.desk.control.direction == Some(way)
      && t.desk.motion.nextRefreshAt == Some(cycle.mono + c.refreshMs)
  {
    hide Step, TasksOk, RecordOk, ValidSettings, Sighted, Room, CycleAndSend, OnePulseMore;
    var u := Step(c, w, Hold(way, asked));
    HoldStarts(c, w, way, asked);
    FreshHoldPublishes(c, w.desk.(pending := None), u.desk, way, asked, cycle);
    FreshPulseGoesOut(c, u, way, c.manualHoldMs, cycle, sent);
  }

  lemma FreshTargetPublishes(c: Settings, d: Desk, u: Desk, target: real, way: Way, asked: Env, cycle: Env)
    requires ValidSettings(c) && RecordOk(c, u) && InService(d) && TargetBegun(d, target, way, asked, u)
    requires asked.mono <= cycle.mono <= asked.mono + c.targetTimeoutMs && Consistent(cycle.monitor)
    requires Sighted(c, cycle) && !Near(target, cycle.monitor.height.value, c.fineDistance)
    requires way == if target > cycle.monitor.height.value then Up else Down
    requires cycle.relay.state != (if way == Up then Some(RelayDown) else Some(RelayUp))
    ensures var (t, act) := Cycle(c, u, cycle);
      t.control == u.control && Decided(t, cycle, way, c.continuousHoldMs, None, act)
  {
    CycleIsExact(c, u, cycle);
    hide Cycle, Sighted;
  }

  /** The same for a target out of reach of a fine pulse, seen so when asked for and in the cycle. */
  lemma TargetMovesTheDesk(c: Settings, w: World, target: real, asked: Env, cycle: Env, sent: Env)
    requires Acting(c, w, asked) && Heard(w) && w.lock == Free && w.runner == Waiting
    requires InService(w.desk) && w.desk.control.mode == NoMotion && Resting(asked)
    requires c.opMin <= target <= c.opMax
    requires Sighted(c, asked) && !Near(target, asked.monitor.height.value, c.tolerance)
    requires Consistent(cycle.monitor) && Consistent(sent.monitor)
    requires asked.mono <= cycle.mono <= asked.mono + c.targetTimeoutMs && cycle.mono <= sent.mono
    requires Sighted(c, cycle) && !Near(target, cycle.monitor.height.value, c.fineDistance)
    requires target > asked.monitor.height.value <==> target > cycle.monitor.height.value
    requires cycle.relay.state != (if target > cycle.monitor.height.value then Some(RelayDown) else Some(RelayUp))
    ensures var t := CycleAndSend(c, Step(c, w, SetTarget(target, asked)), cycle, sent);
      var g := w.desk.control.generation;
      && OnePulseMore(w.trace + [Asked(g)] + [Installed(t.desk.control, Direct(None))], t.trace, g + 1,
                      if target > cycle.monitor.height.value then Up else Down, c.continuousHoldMs)
      && t.desk.control.mode == Target && t.desk.control.target == Some(target)
      && t.desk.motion.nextRefreshAt == Some(cycle.mono + c.refreshMs)
  {
    var way := if target > cycle.monitor.height.value then Up else Down;
    hide Step, TasksOk, RecordOk, ValidSettings, Sighted, Near, CycleAndSend, OnePulseMore;
    var u := Step(c, w, SetTarget(target, asked));
    TargetStarts(c, w, target, asked);
    FreshTargetPublishes(c, w.desk.(pending := None), u.desk, target, way, asked, cycle);
    FreshPulseGoesOut(c, u, way, c.continuousHoldMs, cycle, sent);
  }
}
