// The message handlers of the relay firmware as objects that change state, and the main loop. Each call
// is shown to be one Event of Sessions, each pass of the loop a sequence of them, so that what
// FirmwareRuns proves of event sequences holds of the program.
module ControlHandlers {
  import opened Policy
  import opened Relays
  import opened Sessions
  import opened FirmwareRuns
  import opened FirmwareAnswers

  /** The MQTT connection. It may break at any time and is rebuilt only by Connect. */
  class Mqtt {
    var up: bool
    // How many messages the program tried to send, and how many of them could not be; how often the
    // connection broke by itself, and how often it was asked for and made.
    ghost var attempts: nat
    ghost var refusals: nat
    ghost var breaks: nat
    ghost var dials: nat
    ghost var connects: nat

    constructor ()
      ensures !up
    {
      up := false;
      attempts, refusals, breaks, dials, connects := 0, 0, 0, 0, 0;
    }

    method Connected() returns (r: bool)
      modifies `up, `breaks
      ensures r == up && (up ==> old(up))
      ensures breaks == old(breaks) + if old(up) && !up then 1 else 0
    {
      var broken: bool := *;
      breaks := breaks + if up && broken then 1 else 0;
      up := up && !broken;
      r := up;
    }

    method Connect() returns (r: bool)
      modifies `up, `dials, `connects
      ensures r == up && dials == old(dials) + 1 && connects == old(connects) + if r then 1 else 0
    {
      up := *;
      r := up;
      dials := dials + 1;
      connects := connects + if r then 1 else 0;
    }

    method Disconnect()
      modifies `up
      ensures !up
    {
      up := false;
    }

    /** What becomes of a publish or a subscription, after any time. */
    method Finish(sent: bool)
      modifies `up, `breaks, `attempts, `refusals
      ensures attempts == old(attempts) + 1 && refusals == old(refusals) + if sent then 0 else 1
      ensures up ==> old(up)
      ensures breaks == old(breaks) + if old(up) && !up then 1 else 0
    {
      attempts := attempts + 1;
      refusals := refusals + if sent then 0 else 1;
      var _ := Connected();
    }
  }

  class ControlHandler {
    const mqtt: Mqtt
    const relay: RelayController
    var hasBaseline: bool
    var hasDistinctHeight: bool
    var armed: bool
    var baselineObservedAt: string
    var lastObservedAt: string
    var lastHeight: Option<real>
    var sessionStartedAt: uint32
    var lastDistinctHeightAt: uint32

    ghost predicate Valid()
      reads this, relay
    {
      relay.Valid() && Sound(View())
    }

    function Flags(): Session
      reads this
    {
      Session(hasBaseline, hasDistinctHeight, armed, baselineObservedAt, lastObservedAt, lastHeight,
              sessionStartedAt, lastDistinctHeightAt)
    }

    function View(): Handler
      reads this, relay
    {
      Handler(Flags(), relay.View())
    }

    /** A connection that neither broke nor refused a message is still up. */
    ghost predicate Linked(wasUp: bool, breaks: nat, refusals: nat)
      reads mqtt
    {
      mqtt.breaks >= breaks && mqtt.refusals >= refusals
      && (wasUp && mqtt.breaks == breaks && mqtt.refusals == refusals ==> mqtt.up)
    }

    /** A handler fails closed if and only if a message of it could not be sent. */
    ghost predicate ClosesIf(failed: bool, refusals: nat)
      reads mqtt
    {
      mqtt.refusals >= refusals && (failed <==> mqtt.refusals > refusals) && (failed ==> !mqtt.up)
    }

    constructor (mqtt: Mqtt, relay: RelayController)
      requires relay.Valid() && relay.View() == Stopped()
      ensures Valid() && this.mqtt == mqtt && this.relay == relay
      ensures View() == Boot().handler
    {
      this.mqtt, this.relay := mqtt, relay;
      hasBaseline, hasDistinctHeight, armed := false, false, false;
      baselineObservedAt, lastObservedAt, lastHeight := "", "", None;
      sessionStartedAt, lastDistinctHeightAt := 0, 0;
    }

    /** `stamp` is the time the caller read from the clock before it connected. */
    method BeginSession(stamp: nat) returns (ghost e: Event)
      requires relay.Valid() && stamp <= relay.clock
      modifies this, relay
      ensures Valid() && View() == Apply(old(View()), e)
      ensures e == Event(old(relay.clock), relay.clock, false, Begin(stamp)) && Timely(e, 0)
    {
      var _ := relay.StopNow();
      hasBaseline := false;
      hasDistinctHeight := false;
      armed := false;
      baselineObservedAt := "";
      lastObservedAt := "";
      lastHeight := None;
      sessionStartedAt := Millis(stamp);
      lastDistinctHeightAt := 0;
      e := Event(old(relay.clock), relay.clock, false, Begin(stamp));
    }

    method InvalidateSession()
      requires relay.Valid()
      modifies this, relay
      ensures Valid() && relay.clock >= old(relay.clock)
      ensures View() == Handler(Invalidated(old(Flags())), Stopped())
    {
      var _ := relay.StopNow();
      hasBaseline := false;
      hasDistinctHeight := false;
      armed := false;
      baselineObservedAt := "";
      lastObservedAt := "";
      lastHeight := None;
      lastDistinctHeightAt := 0;
    }

    /** Publishing takes any time, during which the timer may stop the motor. */
    method PublishStatus() returns (ok: bool)
      requires relay.Valid()
      modifies relay, mqtt`up, mqtt`breaks, mqtt`attempts, mqtt`refusals
      ensures relay.Valid() && relay.clock >= old(relay.clock)
      ensures relay.View() == Fire(old(relay.View()), relay.clock)
      ensures ok ==> old(mqtt.up)
      ensures mqtt.up ==> old(mqtt.up)
      ensures Linked(old(mqtt.up), old(mqtt.breaks), old(mqtt.refusals))
      ensures mqtt.attempts == old(mqtt.attempts) + 1
      ensures mqtt.refusals == old(mqtt.refusals) + if ok then 0 else 1
    {
      relay.Elapse(0, relay.jitter);
      ok := mqtt.Connected();
      if ok {
        var most: nat :| most >= 0;
        relay.Elapse(0, most);
        ok := *;
      }
      mqtt.Finish(ok);
    }

    method FailClosed()
      requires relay.Valid()
      modifies this, relay, mqtt`up, mqtt`breaks
      ensures Valid() && !mqtt.up && relay.clock >= old(relay.clock) && mqtt.breaks >= old(mqtt.breaks)
      ensures View() == Handler(Invalidated(old(Flags())), Stopped())
    {
      var _ := relay.StopNow();
      InvalidateSession();
      var up := mqtt.Connected();
      if up { mqtt.Disconnect(); }
    }

    /** STOP, then a status message, or failing closed if it cannot be sent. */
    method StopAndPublish() returns (failed: bool)
      requires relay.Valid()
      modifies this, relay, mqtt`up, mqtt`breaks, mqtt`attempts, mqtt`refusals
      ensures relay.Valid() && relay.clock >= old(relay.clock) && relay.View() == Stopped()
      ensures Flags() == if failed then Invalidated(old(Flags())) else old(Flags())
      ensures ClosesIf(failed, old(mqtt.refusals)) && mqtt.attempts == old(mqtt.attempts) + 1
      ensures mqtt.up ==> old(mqtt.up)
      ensures Linked(old(mqtt.up), old(mqtt.breaks), old(mqtt.refusals))
    {
      var _ := relay.StopNow();
      var sent := PublishStatus();
      if !sent { FailClosed(); }
      failed := !sent;
    }

    method UpdateArming(now: uint32) returns (failed: bool)
      requires relay.Valid()
      modifies this, relay, mqtt`up, mqtt`breaks, mqtt`attempts, mqtt`refusals
      ensures relay.Valid() && relay.clock >= old(relay.clock)
      ensures failed ==> View() == Handler(Invalidated(old(Flags())), Stopped())
      ensures !failed ==>
        View() == Handler(Sessions.UpdateArming(old(Flags()), now), Fire(old(relay.View()), relay.clock))
      ensures ClosesIf(failed, old(mqtt.refusals))
      ensures mqtt.up ==> old(mqtt.up)
      ensures Linked(old(mqtt.up), old(mqtt.breaks), old(mqtt.refusals))
    {
      hide BreaksBeforeMaking, OffSince, OffFor;
      failed := false;
      relay.Elapse(0, relay.jitter);
      if armed || !hasBaseline || !hasDistinctHeight { return; }
      if !Elapsed(now, sessionStartedAt, ARM_DELAY_MS) { return; }
      if Elapsed(now, lastDistinctHeightAt, HEIGHT_LEASE_MS) { return; }
      armed := true;
      var up := mqtt.Connected();
      if up {
        var sent := PublishStatus();
        if !sent {
          FailClosed();
          failed := true;
        }
      }
    }

    method HandleHeight(message: HeightMessage) returns (ghost e: Event)
      requires Valid() && ParsedHeight(message)
      modifies this, relay, mqtt`up, mqtt`breaks, mqtt`attempts, mqtt`refusals
      ensures Valid() && View() == Apply(old(View()), e)
      ensures e.act.Height? && e.act.message == message && Timely(e, 0)
      ensures old(relay.clock) == e.at && e.until == relay.clock
      ensures ClosesIf(e.failed, old(mqtt.refusals))
      ensures mqtt.up ==> old(mqtt.up)
      ensures Linked(old(mqtt.up), old(mqtt.breaks), old(mqtt.refusals))
    {
      hide BreaksBeforeMaking, OffSince, OffFor;
      ghost var start := relay.clock;
      match message
      case BadHeight =>
        var wasMoving := relay.StopNow();
        InvalidateSession();
        var up := mqtt.Connected();
        var failed := false;
        if wasMoving || up {
          var sent := PublishStatus();
          if !sent { FailClosed(); }
          failed := !sent;
        }
        e := Event(start, relay.clock, failed, Height(message, relay.clock));
      case Reading(observedAt, height) =>
        if !hasBaseline {
          baselineObservedAt := observedAt;
          lastObservedAt := observedAt;
          lastHeight := Some(height);
          hasBaseline := true;
          relay.Elapse(0, relay.jitter);
          e := Event(start, relay.clock, false, Height(message, relay.clock));
        } else if observedAt == lastObservedAt {
          relay.Elapse(0, relay.jitter);
          e := Event(start, relay.clock, false, Height(message, relay.clock));
        } else {
          e := HandleChange(observedAt, height);
        }
    }

    /** A height with a new `observedAt`: it renews the lease, may arm, and may end the motion. */
    method HandleChange(observedAt: string, height: real) returns (ghost e: Event)
      requires Valid() && ParsedHeight(Reading(observedAt, height)) && IsChange(Flags(), observedAt)
      modifies this, relay, mqtt`up, mqtt`breaks, mqtt`attempts, mqtt`refusals
      ensures Valid() && View() == Apply(old(View()), e)
      ensures e.act.Height? && e.act.message == Reading(observedAt, height) && Timely(e, 0)
      ensures old(relay.clock) == e.at && e.until == relay.clock
      ensures ClosesIf(e.failed, old(mqtt.refusals))
      ensures mqtt.up ==> old(mqtt.up)
      ensures Linked(old(mqtt.up), old(mqtt.breaks), old(mqtt.refusals))
    {
      hide BreaksBeforeMaking, OffSince, OffFor;
      ghost var start := relay.clock;
      ghost var before := View();
      var now := Millis(relay.clock);
      lastObservedAt := observedAt;
      lastHeight := Some(height);
      lastDistinctHeightAt := now;
      hasDistinctHeight := true;
      var failed := UpdateArming(now);
      ghost var seen := relay.clock;
      if relay.direction == Up && height >= MAX_CONTROL_CM {
        failed := StopAndPublish();
      } else if relay.direction == Down && height <= MIN_CONTROL_CM {
        failed := StopAndPublish();
      }
      e := Event(start, relay.clock, failed, Height(Reading(observedAt, height), seen));
      HandlersKeepSound(before, e, 0);
    }

    /** STOP, a command that may not be obeyed, or a message that is no command. */
    method Reject(command: Command) returns (ghost e: Event)
      requires Valid() && ParsedCommand(command) && !Admits(Flags(), command, relay.clock)
      modifies this, relay, mqtt`up, mqtt`breaks, mqtt`attempts, mqtt`refusals
      ensures Valid() && View() == Apply(old(View()), e)
      ensures e.act.Control? && e.act.command == command && Timely(e, 0)
      ensures Obeyed(old(Flags()), e, relay.View())
      ensures old(relay.clock) == e.at && e.until == relay.clock
      ensures ClosesIf(e.failed, old(mqtt.refusals))
      ensures mqtt.up ==> old(mqtt.up)
      ensures Linked(old(mqtt.up), old(mqtt.breaks), old(mqtt.refusals))
      ensures mqtt.attempts == old(mqtt.attempts) + 1
    {
      hide BreaksBeforeMaking, OffSince, OffFor, Obeyed;
      ghost var at := relay.clock;
      ghost var before := View();
      var failed := StopAndPublish();
      e := Event(at, relay.clock, failed, Control(command, at, at));
      HandlersKeepSound(before, e, 0);
      CommandIsObeyed(before, e, 0);
    }

    method HandleControl(command: Command) returns (ghost e: Event)
      requires Valid() && ParsedCommand(command)
      modifies this, relay, mqtt`up, mqtt`breaks, mqtt`attempts, mqtt`refusals
      ensures Valid() && View() == Apply(old(View()), e)
      ensures e.act.Control? && e.act.command == command && Timely(e, 5 * relay.jitter)
      ensures Obeyed(old(Flags()), e, relay.View())
      ensures old(relay.clock) == e.at && e.until == relay.clock
      ensures ClosesIf(e.failed, old(mqtt.refusals))
      ensures mqtt.up ==> old(mqtt.up)
      ensures Linked(old(mqtt.up), old(mqtt.breaks), old(mqtt.refusals))
      ensures mqtt.attempts == old(mqtt.attempts) + 1
    {
      hide BreaksBeforeMaking, OffSince, OffFor, Obeyed;
      if !command.Move? {
        e := Reject(command);
        return;
      }
      var ready := IsReady(Flags(), Millis(relay.clock));
      if !ready || !BoundaryAllows(Flags(), command.direction) {
        e := Reject(command);
        return;
      }
      ghost var at := relay.clock;
      ghost var before := View();
      relay.Elapse(0, relay.jitter);
      ghost var ran := relay.View();
      var result, cut, started := relay.Start(command.direction, command.holdMs);
      assert Fire(before.relay, cut) == Fire(ran, cut);
      var sent := PublishStatus();
      if !sent { FailClosed(); }
      e := Event(at, relay.clock, !sent, Control(command, cut, started));
      HandlersKeepSound(before, e, 5 * relay.jitter);
      CommandIsObeyed(before, e, 5 * relay.jitter);
    }

    method Tick() returns (ghost e: Event)
      requires Valid()
      modifies this, relay, mqtt`up, mqtt`breaks, mqtt`attempts, mqtt`refusals
      ensures Valid() && View() == Apply(old(View()), e)
      ensures e.act.Tick? && Timely(e, 0) && old(relay.clock) == e.at && e.until == relay.clock
      ensures ClosesIf(e.failed, old(mqtt.refusals))
      ensures mqtt.up ==> old(mqtt.up)
      ensures Linked(old(mqtt.up), old(mqtt.breaks), old(mqtt.refusals))
    {
      hide BreaksBeforeMaking, OffSince, OffFor;
      ghost var at := relay.clock;
      ghost var before := View();
      var now := Millis(relay.clock);
      var failed := UpdateArming(now);
      if armed && Elapsed(now, lastDistinctHeightAt, HEIGHT_LEASE_MS) {
        var wasMoving := relay.StopNow();
        armed := false;
        hasDistinctHeight := false;
        if wasMoving {
          var sent := PublishStatus();
          if !sent {
            FailClosed();
            failed := true;
          }
        }
      }
      e := Event(at, relay.clock, failed, Act.Tick);
      HandlersKeepSound(before, e, 0);
    }

    method HandleTimeoutEvent() returns (ghost e: Event)
      requires Valid()
      modifies this, relay, mqtt`up, mqtt`breaks, mqtt`attempts, mqtt`refusals
      ensures Valid() && View() == Apply(old(View()), e)
      ensures e.act.TakeTimeout? && Timely(e, 0) && old(relay.clock) == e.at && e.until == relay.clock
      ensures Fire(old(relay.View()), e.act.taken).pending && mqtt.up ==> mqtt.attempts == old(mqtt.attempts) + 1
      ensures ClosesIf(e.failed, old(mqtt.refusals))
      ensures mqtt.up ==> old(mqtt.up)
      ensures Linked(old(mqtt.up), old(mqtt.breaks), old(mqtt.refusals))
    {
      hide BreaksBeforeMaking, OffSince, OffFor;
      ghost var at := relay.clock;
      ghost var before := View();
      var failed := false;
      relay.Elapse(0, relay.jitter);
      ghost var taken := relay.clock;
      var was := relay.TakeTimeoutEvent();
      relay.Elapse(0, relay.jitter);
      var up := mqtt.Connected();
      if was && up {
        var sent := PublishStatus();
        failed := !sent;
        if failed { FailClosed(); }
      }
      e := Event(at, relay.clock, failed, TakeTimeout(taken));
      HandlersKeepSound(before, e, 0);
    }
  }
}
