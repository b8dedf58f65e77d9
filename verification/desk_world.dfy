// All interleavings of the desk controller within one start()..stop() lifetime: the runner, the
// request that holds the intent lock, the STOP being confirmed and the shutdown, sharing one relay lock
// and writing one trace. A run is any sequence of labels; a label that is not enabled changes nothing.
module DeskWorld {
  import opened Policy
  import opened HeightMonitors
  import opened DeskModel

  datatype Client = TheRunner | TheRequest | TheStopper | TheShutdown

  datatype Message = PulseMessage(pulse: Pulse) | StopMessage | WakeMessage(order: WakeOrder)

  /** The relay lock: who holds it, to send what, and whether it has gone out on the wire. */
  datatype RelayLock = Free | Held(client: Client, message: Message, sent: bool)

  datatype Runner =
    | Waiting
    | WantsIntentLock
    | Sending(message: Message)
    | MustStop(last: bool, blamed: bool)   // a stop task has been created; afterwards the runner ends if `last`
    | Dead

  datatype Goal = ToTarget(target: real) | ToHold(way: Way)

  /**
   * A request holds the intent lock. `replaced` is the generation of the intent that was live and `since`
   * the place on the trace where it was. A request that stops the motion has created its stop task when it
   * is Halting, and waits for it when it is Halted.
   */
  datatype Request =
    | NoRequest
    | HandingOver(goal: Goal, replaced: Option<nat>, since: nat)
    | Ordering(order: WakeOrder)
    | Halting(blamed: bool)
    | Halted

  datatype Owner = ByStart | ByTask(blamed: bool) | ByRequest

  datatype Stopper = NoStop | Stopping(owner: Owner, baseline: Option<int>, confirming: bool)

  datatype Shutdown = Alive | Closing | Closed(ok: bool) | Over

  /** An intent is installed at once, over a live one or not, or after a hand-over, or at start-up. */
  datatype Origin = Direct(replaced: Option<nat>) | After(replaced: Option<nat>, since: nat) | Startup

  datatype Entry =
    | Installed(control: Control, origin: Origin)
    | Activated(generation: nat, env: Env)
    | Sent(message: Message, generation: nat, client: Client)
    | Published(client: Client)      // what the client has sent last went out without an error
    | Replacing(replaced: Option<nat>, relay: RelayReport)   // a hand-over begins, with this report known
    | Invalid(generation: nat)       // a request failed validation while this intent was live
    | Confirmed(baseline: Option<int>, relay: RelayReport)
    | Registered                     // start() has finished
    | Asked(generation: nat)         // a user request passed validation at this generation
    | HoldAt(mono: int)              // a HOLD took effect

  datatype World = World(
    desk: Desk, lock: RelayLock, runner: Runner, request: Request, stopper: Stopper, shutdown: Shutdown,
    now: int, trace: seq<Entry>)

  datatype Label =
    | RunCycle(env: Env)
    | TakeIntentLock(env: Env)
    | RunnerStops(env: Env)
    | RunnerFails                    // cancelled from outside, or an unexpected exception
    | SetTarget(target: real, env: Env)
    | AdjustTarget(amount: real, increase: bool, env: Env)
    | Hold(way: Way, env: Env)
    | RequestFails                   // the request is cancelled while it hands over or orders a WAKE
    | StopMotion(env: Env)
    | RequestStops(env: Env)         // the stop task of a request runs its first section
    | StopTaskFails                  // a stop task is cancelled: its caller was, for the second time
    | StartFails                     // start() is cancelled while its STOP is sent or confirmed
    | Confirm(env: Env)
    | GiveUp(env: Env)
    | Acquire(client: Client)
    | Wire
    | Release(ok: bool, env: Env)
    | BeginShutdown
    | EndShutdown

  /** start() up to its first await. */
  function Begin(generation: nat, env: Env): World {
    World(Started(generation), Free, Waiting, NoRequest, Stopping(ByStart, env.relay.receivedAt, false),
          Alive, env.mono, [])
  }

  predicate IntentLockFree(w: World) {
    && w.request == NoRequest
    && !(w.runner.Sending? && w.runner.message.WakeMessage?)
  }

  function Installs(w: World, d: Desk, origin: Origin): World {
    w.(desk := d, trace := w.trace + [Installed(d.control, origin)])
  }

  /** The generation of the live intent, if there is one. */
  function LiveIntent(d: Desk): Option<nat> {
    if d.control.mode == NoMotion then None else Some(d.control.generation)
  }

  // ---- The runner

  function RunnerActs(w: World, d: Desk, act: Act, env: Env): World {
    var was := w.desk.control;
    var trace := if was.awaiting && !d.control.awaiting && d.control.mode != NoMotion
                 then w.trace + [Activated(was.generation, env)] else w.trace;
    var t := w.(desk := d, now := env.mono, trace := trace);
    match act
    case Rest => t
    case Stop(blamed) => t.(runner := MustStop(false, blamed))
    case Publish(pulse) => t.(runner := Sending(PulseMessage(pulse)))
    case SendStop => t.(runner := Sending(StopMessage))
    case Lock => t.(runner := WantsIntentLock)
    case Nudge(order) => Installs(t, d, Startup).(runner := Sending(WakeMessage(order)))
  }

  function RunnerCycles(c: Settings, w: World, env: Env): World {
    var (d, act) := Cycle(c, w.desk, env);
    RunnerActs(w, d, act, env)
  }

  function RunnerLocks(c: Settings, w: World, env: Env): World {
    var (d, act) := StartupCycle(c, w.desk, env);
    RunnerActs(w.(runner := Waiting), d, act, env)
  }

  function StopTask(w: World, blamed: bool, env: Env): World {
    var (d, begun) := StopBegins(w.desk, env);
    if begun then w.(desk := d, now := env.mono, stopper := Stopping(ByTask(blamed), env.relay.receivedAt, false))
    else w.(now := env.mono)
  }

  function RequestStopTask(w: World, env: Env): World
    requires w.request.Halting?
  {
    StopTask(w, w.request.blamed, env).(request := if StopBegins(w.desk, env).1 then Halted else NoRequest)
  }

  // ---- Requests

  function RequestActs(w: World, d: Desk, next: Next, goal: Goal, origin: Origin, env: Env): World {
    var held := d.motion.lastHoldAt == Some(env.mono);
    var trace := if held then w.trace + [HoldAt(env.mono)] else w.trace;
    var t := w.(desk := d, now := env.mono, request := NoRequest, trace := trace);
    match next
    case Return => t
    case Refuse => t
    case Reached => t.(request := Halting(false))
    case Halt => t.(request := Halting(false), trace := trace + [Invalid(w.desk.control.generation)])
    case HandOver =>
      t.(request := HandingOver(goal, LiveIntent(w.desk), |trace|),
         trace := trace + [Replacing(LiveIntent(w.desk), env.relay)],
         stopper := Stopping(ByRequest, env.relay.receivedAt, false))
    case SendWake(order) => Installs(t, d, origin).(request := Ordering(order))
    case Go => Installs(t, d, origin)
  }

  function AsksTarget(c: Settings, w: World, target: real, env: Env): World {
    var t := if c.opMin <= target <= c.opMax then w.(trace := w.trace + [Asked(w.desk.control.generation)]) else w;
    var (d, next) := TargetEnters(c, w.desk, target, env);
    RequestActs(t, d, next, ToTarget(target), Direct(LiveIntent(w.desk)), env)
  }

  /** increase_target and decrease_target. */
  function AdjustsTarget(c: Settings, w: World, amount: real, increase: bool, env: Env): World {
    if amount <= 0.0 then
      if w.desk.control.mode == NoMotion then w.(now := env.mono)
      else w.(now := env.mono, request := Halting(false), trace := w.trace + [Invalid(w.desk.control.generation)])
    else AdjustsValid(c, w, if increase then amount else -amount, env)
  }

  function AdjustsValid(c: Settings, w: World, amount: real, env: Env): World {
    var t := w.(desk := w.desk.(pending := None), trace := w.trace + [Asked(w.desk.control.generation)]);
    if t.desk.control.mode != Target || t.desk.control.target.None? then t
    else AsksTarget(c, t, t.desk.control.target.value + amount, env)
  }

  function AsksHold(c: Settings, w: World, way: Way, env: Env): World {
    var (d, next) := HoldEnters(c, w.desk, way, env);
    var t := if Accepting(w.desk) then w.(trace := w.trace + [Asked(w.desk.control.generation)]) else w;
    RequestActs(t, d, next, ToHold(way), Direct(LiveIntent(w.desk)), env)
  }

  function RequestProceeds(c: Settings, w: World, env: Env): World
    requires w.request.HandingOver?
  {
    var origin := After(w.request.replaced, w.request.since);
    match w.request.goal
    case ToTarget(target) =>
      var (d, next) := TargetProceeds(c, w.desk, target, env);
      RequestActs(w, d, next, w.request.goal, origin, env)
    case ToHold(way) =>
      var (d, next) := HoldProceeds(c, w.desk, way, env);
      RequestActs(w, d, next, w.request.goal, origin, env)
  }

  // ---- STOP

  function StopFinishes(c: Settings, w: World, failed: bool, env: Env): World
    requires w.stopper.Stopping?
  {
    var t := w.(stopper := NoStop, now := env.mono);
    match w.stopper.owner
    case ByStart => t.(desk := StartEnds(c, w.desk, failed, env), trace := w.trace + [Registered])
    case ByTask(blamed) =>
      t.(desk := StopEnds(w.desk, failed || blamed), request := if w.request == Halted then NoRequest else w.request)
    case ByRequest =>
      var u := t.(desk := StopEnds(w.desk, failed));
      if failed || !w.request.HandingOver? then u.(request := NoRequest) else RequestProceeds(c, u, env)
  }

  // ---- The relay lock

  function Acquires(w: World, client: Client): World {
    if w.lock != Free then w
    else match client
         case TheRunner =>
           if !w.runner.Sending? then w
           else if w.runner.message.PulseMessage? && !StillWanted(w.desk, w.runner.message.pulse)
           then w.(runner := Waiting)
           else w.(lock := Held(TheRunner, w.runner.message, false))
         case TheRequest =>
           if w.request.Ordering? then w.(lock := Held(TheRequest, WakeMessage(w.request.order), false)) else w
         case TheStopper =>
           if w.stopper.Stopping? && !w.stopper.confirming
           then w.(lock := Held(TheStopper, StopMessage, false)) else w
         case TheShutdown =>
           if w.shutdown == Closing then w.(lock := Held(TheShutdown, StopMessage, false)) else w
  }

  function Wires(w: World): World {
    if w.lock.Held? && !w.lock.sent
    then w.(lock := w.lock.(sent := true), 
               trace := w.trace + [Sent(w.lock.message, w.desk.control.generation, w.lock.client)])
    else w
  }

  /** The runner's await returns: the pulse or the STOP has been published, or could not be. */
  function RunnerReturns(c: Settings, w: World, message: Message, ok: bool, env: Env): World {
    var t := w.(now := env.mono, runner := Waiting);
    match message
    case PulseMessage(p) =>
      if p.generation != w.desk.control.generation then t
      else if !ok then t.(runner := MustStop(false, true))
      else t.(desk := PulseDone(c, w.desk, p, env.mono))
    case StopMessage =>
      if !ok then t.(runner := MustStop(false, true)) else t.(desk := SettleDone(c, w.desk, env.mono))
    case WakeMessage(order) =>
      if !ok && order.generation == w.desk.control.generation then t.(runner := MustStop(false, true)) else t
  }

  function Releases(c: Settings, w: World, ok: bool, env: Env): World {
    if !w.lock.Held? || (ok && !w.lock.sent) then w
    else
      var t := w.(lock := Free, now := env.mono, trace := if ok then w.trace + [Published(w.lock.client)] else w.trace);
      match w.lock.client
      case TheRunner => RunnerReturns(c, t, w.lock.message, ok, env)
      case TheRequest =>
        if !ok && w.request.Ordering? && w.request.order.generation == w.desk.control.generation
        then t.(request := Halting(true)) else t.(request := NoRequest)
      case TheStopper =>
        if !w.stopper.Stopping? then t
        else if ok then t.(stopper := w.stopper.(confirming := true))
        else StopFinishes(c, t, true, env)
      case TheShutdown => t.(shutdown := Closed(ok))
  }

  function Unlock(w: World, client: Client): World {
    if w.lock.Held? && w.lock.client == client then w.(lock := Free) else w
  }

  /** The clock does not go back, and the height monitor is in a state its object produces. */
  predicate Timed(w: World, env: Env) {
    w.now <= env.mono && Consistent(env.monitor)
  }

  function Step(c: Settings, w: World, move: Label): World {
    if w.shutdown == Over then w
    else match move
         case RunCycle(env) => if w.runner == Waiting && Timed(w, env) then RunnerCycles(c, w, env) else w
         case TakeIntentLock(env) =>
           if w.runner == WantsIntentLock && IntentLockFree(w) && Timed(w, env) then RunnerLocks(c, w, env) else w
         case RunnerStops(env) =>
           if w.runner.MustStop? && Timed(w, env)
           then StopTask(w, w.runner.blamed, env).(runner := if w.runner.last then Dead else Waiting) else w
         case RunnerFails =>
           if w.runner == Dead then w
           else if w.desk.closing then Unlock(w, TheRunner).(runner := Dead)
           else Unlock(w, TheRunner).(runner := MustStop(true, true))
         case SetTarget(target, env) =>
           if IntentLockFree(w) && Timed(w, env) then AsksTarget(c, w, target, env) else w
         case AdjustTarget(amount, increase, env) =>
           if IntentLockFree(w) && Timed(w, env) then AdjustsTarget(c, w, amount, increase, env) else w
         case Hold(way, env) => if IntentLockFree(w) && Timed(w, env) then AsksHold(c, w, way, env) else w
         case RequestFails =>
           if w.request.Ordering? then Unlock(w, TheRequest).(request := NoRequest)
           else if w.stopper.Stopping? && w.stopper.owner == ByRequest
           then Unlock(w, TheStopper).(request := NoRequest, stopper := NoStop)
           else w
         case StopMotion(env) =>
           if IntentLockFree(w) && Timed(w, env) then w.(now := env.mono, request := Halting(false)) else w
         case RequestStops(env) =>
           if w.request.Halting? && Timed(w, env) then RequestStopTask(w, env) else w
         case StopTaskFails =>
           if w.stopper.Stopping? && w.stopper.owner.ByTask?
           then Unlock(w, TheStopper).(stopper := NoStop, request := if w.request == Halted then NoRequest else w.request)
           else w
         case StartFails =>
           if w.stopper.Stopping? && w.stopper.owner == ByStart then Unlock(w, TheStopper).(stopper := NoStop) else w
         case Confirm(env) =>
           if w.stopper.Stopping? && w.stopper.confirming && Timed(w, env) && FreshStop(w.stopper.baseline, env.relay)
           then StopFinishes(c, w.(trace := w.trace + [Confirmed(w.stopper.baseline, env.relay)]), false, env)
           else w
         case GiveUp(env) =>
           if w.stopper.Stopping? && w.stopper.confirming && Timed(w, env) then StopFinishes(c, w, true, env) else w
         case Acquire(client) => Acquires(w, client)
         case Wire => Wires(w)
         case Release(ok, env) => if Timed(w, env) then Releases(c, w, ok, env) else w
         case BeginShutdown =>
           if w.shutdown == Alive then w.(desk := CloseBegins(w.desk), shutdown := Closing) else w
         case EndShutdown =>
           if w.shutdown.Closed? then
             Unlock(w, TheRunner).(desk := CloseEnds(w.desk, !w.shutdown.ok), runner := Dead, shutdown := Over)
           else w
  }

  function Run(c: Settings, generation: nat, first: Env, labels: seq<Label>): World {
    if labels == [] then Begin(generation, first)
    else Step(c, Run(c, generation, first, labels[..|labels| - 1]), labels[|labels| - 1])
  }
}
