// The height session of the relay firmware: which messages arm the motor outputs, for how long, and
// what each handler does to the session and to the relay. Pure; ControlHandler refines it.
module Sessions {
  import opened Policy
  import opened Relays

  datatype Session = Session(
    baseline: bool,
    distinct: bool,
    armed: bool,
    baselineObservedAt: string,
    observedAt: string,
    height: Option<real>,
    startedAt: uint32,
    distinctAt: uint32)

  function BeginSession(now: uint32): Session {
    Session(false, false, false, "", "", None, now, 0)
  }

  function Invalidated(s: Session): Session {
    Session(false, false, false, "", "", None, s.startedAt, 0)
  }

  predicate IsReady(s: Session, now: uint32) {
    s.armed && s.distinct && s.height.Some? && !Elapsed(now, s.distinctAt, HEIGHT_LEASE_MS)
  }

  function UpdateArming(s: Session, now: uint32): Session {
    if s.armed || !s.baseline || !s.distinct then s
    else if !Elapsed(now, s.startedAt, ARM_DELAY_MS) then s
    else if Elapsed(now, s.distinctAt, HEIGHT_LEASE_MS) then s
    else s.(armed := true)
  }

  /** A height with an `observedAt` other than the last one. */
  predicate IsChange(s: Session, observedAt: string) {
    s.baseline && observedAt != s.observedAt
  }

  function OnHeight(s: Session, observedAt: string, height: real, now: uint32): Session {
    if !s.baseline then
      s.(baseline := true, baselineObservedAt := observedAt, observedAt := observedAt, height := Some(height))
    else if observedAt == s.observedAt then s
    else UpdateArming(
      s.(observedAt := observedAt, height := Some(height), distinctAt := now, distinct := true), now)
  }

  predicate LeaseLapsed(s: Session, now: uint32) {
    s.armed && Elapsed(now, s.distinctAt, HEIGHT_LEASE_MS)
  }

  function OnTick(s: Session, now: uint32): Session {
    var t := UpdateArming(s, now);
    if LeaseLapsed(t, now) then t.(armed := false, distinct := false) else t
  }

  datatype HeightMessage = Reading(observedAt: string, height: real) | BadHeight

  datatype Command = StopCommand | Move(direction: Direction, holdMs: nat) | BadCommand

  /** What the message parsers let through. */
  predicate ParsedHeight(m: HeightMessage) {
    m.Reading? ==> 0 < |m.observedAt| <= MAX_OBSERVED_AT_BYTES && MeasuredHeightAllowed(m.height)
  }

  predicate ParsedCommand(c: Command) {
    c.Move? ==> c.direction != Stop && HoldAllowed(c.holdMs)
  }

  datatype Handler = Handler(session: Session, relay: Relay)

  /**
   * One call of a handler. It starts at `at` and returns at `until`; `failed` says that a status
   * message could not be published, so that the handler failed closed. `stamp` is the time the caller
   * captured before connecting, `seen` the time the direction is compared with a limit, `cut` and
   * `armed` when start() disables and restarts the timer, `taken` when the timeout flag is cleared.
   */
  datatype Act =
    | Begin(stamp: nat)
    | Lose
    | Height(message: HeightMessage, seen: nat)
    | Control(command: Command, cut: nat, armed: nat)
    | Tick
    | TakeTimeout(taken: nat)
    | Rest

  datatype Event = Event(at: nat, until: nat, failed: bool, act: Act)

  predicate BoundaryAllows(s: Session, direction: Direction) {
    s.height.Some? && match direction
    case Up => DirectionAllowed(s.height.value, true)
    case Down => DirectionAllowed(s.height.value, false)
    case Stop => false
  }

  predicate AtLimit(direction: Direction, height: real) {
    (direction == Up && height >= MAX_CONTROL_CM) || (direction == Down && height <= MIN_CONTROL_CM)
  }

  predicate Admits(s: Session, c: Command, at: nat) {
    c.Move? && IsReady(s, Millis(at)) && BoundaryAllows(s, c.direction)
  }

  function SessionAfter(s: Session, e: Event): Session {
    if e.act.Begin? then BeginSession(Millis(e.act.stamp))
    else if e.failed then Invalidated(s)
    else match e.act
         case Lose => Invalidated(s)
         case Height(Reading(observedAt, height), _) => OnHeight(s, observedAt, height, Millis(e.at))
         case Height(BadHeight, _) => Invalidated(s)
         case Tick => OnTick(s, Millis(e.at))
         case _ => s
  }

  function RelayAfter(h: Handler, e: Event): Relay {
    var s := h.session;
    var running := Fire(h.relay, e.until);
    if e.failed then Stopped()
    else match e.act
         case Begin(_) => Stopped()
         case Lose => Stopped()
         case Height(BadHeight, _) => Stopped()
         case Height(Reading(observedAt, height), seen) =>
           if IsChange(s, observedAt) && AtLimit(Fire(h.relay, seen).direction, height)
           then Stopped() else running
         case Control(command, cut, armed) =>
           if Admits(s, command, e.at)
           then Fire(StartAt(h.relay, command.direction, command.holdMs, cut, armed), e.until)
           else Stopped()
         case Tick =>
           if LeaseLapsed(UpdateArming(s, Millis(e.at)), Millis(e.at)) then Stopped() else running
         case Rest => running
         case TakeTimeout(taken) => Fire(Fire(h.relay, taken).(pending := false), e.until)
  }

  function Apply(h: Handler, e: Event): Handler {
    Handler(SessionAfter(h.session, e), RelayAfter(h, e))
  }

  predicate Parsed(e: Event) {
    match e.act
    case Height(message, _) => ParsedHeight(message)
    case Control(command, _, _) => ParsedCommand(command)
    case _ => true
  }

  /** The times inside one event are in order; `jitter` bounds what start() spends beside the break. */
  predicate Timely(e: Event, jitter: nat) {
    && e.at <= e.until
    && match e.act
       case Begin(stamp) => stamp <= e.at
       case Height(_, seen) => e.at <= seen <= e.until
       case TakeTimeout(taken) => e.at <= taken <= e.until
       case Control(_, cut, armed) =>
         e.at <= cut <= armed <= e.until && armed <= e.at + BREAK_BEFORE_MAKE_MS + jitter
       case _ => true
  }

  /** What holds at every handler boundary, whatever the timer interrupt and the publishes do. */
  predicate Sound(h: Handler) {
    var s := h.session;
    && (s.armed ==> s.distinct)
    && (s.distinct ==> s.baseline)
    && (s.baseline ==> s.height.Some? && MeasuredHeightAllowed(s.height.value))
    && Guarded(h.relay)
    && (h.relay.direction != Stop ==> s.armed && BoundaryAllows(s, h.relay.direction))
  }

  lemma HandlersKeepSound(h: Handler, e: Event, jitter: nat)
    requires Sound(h) && Parsed(e) && Timely(e, jitter)
    ensures Sound(Apply(h, e))
  {
  }
}
