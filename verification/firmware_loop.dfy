// The main loop of the relay firmware. Every execution is an ordered run of handler events, so what
// FirmwareRuns proves holds of the program; and no pass leaves the motor on unless it saw Wi-Fi and MQTT
// connected and ran the lease check.
module FirmwareLoop {
  import opened Policy
  import opened Relays
  import opened Sessions
  import opened FirmwareRuns
  import opened FirmwareAnswers
  import opened ControlHandlers

  datatype Message = HeightTopic(height: HeightMessage) | ControlTopic(command: Command)

  predicate ParsedMessage(m: Message) {
    match m
    case HeightTopic(height) => ParsedHeight(height)
    case ControlTopic(command) => ParsedCommand(command)
  }

  /** This event hands the message to its handler. */
  predicate Carries(e: Event, m: Message) {
    match m
    case HeightTopic(height) => e.act.Height? && e.act.message == height
    case ControlTopic(command) => e.act.Control? && e.act.command == command
  }

  /** No event from this one on failed closed. */
  predicate AllSent(trail: seq<Event>, from: nat) {
    forall i :: from <= i < |trail| ==> !trail[i].failed
  }

  /**
   * From this event on: the message, if there is one, then the lease check, and then at most a heartbeat
   * and what comes of failing to send it.
   */
  predicate Served(trail: seq<Event>, from: nat, incoming: Option<Message>) {
    var k := if incoming.Some? then from + 1 else from;
    && k < |trail|
    && (incoming.Some? ==> Carries(trail[from], incoming.value))
    && trail[k].act.Tick?
    && (forall i :: k < i < |trail| ==> trail[i].act.Rest? || (trail[i].act.Lose? && trail[i].failed))
  }

  class Firmware {
    const mqtt: Mqtt
    const relay: RelayController
    const control: ControlHandler
    var wifiWasConnected: bool
    var mqttWasConnected: bool
    var lastMqttAttempt: uint32
    var lastHeartbeat: uint32
    // Every handler event since power-up.
    ghost var trail: seq<Event>

    ghost predicate Valid()
      reads this, control, relay
    {
      && control.mqtt == mqtt
      && control.relay == relay
      && control.Valid()
      && Ordered(trail, 5 * relay.jitter)
      && Play(trail).now <= relay.clock
      && Play(trail).handler == control.View()
    }

    constructor (now: nat, jitter: nat)
      ensures Valid() && fresh(mqtt) && fresh(relay) && fresh(control)
      ensures trail == [] && relay.clock == now && relay.jitter == jitter
    {
      var link := new Mqtt();
      var driver := new RelayController(now, jitter);
      mqtt, relay := link, driver;
      control := new ControlHandler(link, driver);
      wifiWasConnected, mqttWasConnected := false, false;
      lastMqttAttempt, lastHeartbeat := 0, 0;
      trail := [];
    }

    ghost method Log(e: Event)
      requires control.mqtt == mqtt && control.relay == relay && control.Valid()
      requires Ordered(trail, 5 * relay.jitter) && Play(trail).now <= e.at && e.until <= relay.clock
      requires Timely(e, 5 * relay.jitter) && Parsed(e)
      requires control.View() == Apply(Play(trail).handler, e)
      modifies `trail
      ensures Valid() && trail == old(trail) + [e]
    {
      hide Apply, Timely, Parsed, Sound, BreaksBeforeMaking, OffSince;
      assert (trail + [e])[..|trail|] == trail;
      trail := trail + [e];
    }

    /** relay.stop() followed by invalidateSession(). */
    method Drop() returns (ghost e: Event)
      requires Valid()
      modifies `trail, control, relay
      ensures Valid() && trail == old(trail) + [e] && e.act.Lose? && !e.failed
      ensures relay.direction == Stop && relay.clock >= old(relay.clock)
    {
      ghost var at := relay.clock;
      var _ := relay.StopNow();
      control.InvalidateSession();
      e := Event(at, relay.clock, false, Lose);
      Log(e);
    }

    method FailClosed() returns (ghost e: Event)
      requires Valid()
      modifies `trail, control, relay, mqtt`up, mqtt`breaks
      ensures Valid() && trail == old(trail) + [e] && e.act.Lose? && e.failed
      ensures relay.direction == Stop && !mqtt.up && mqtt.breaks >= old(mqtt.breaks)
    {
      ghost var at := relay.clock;
      control.FailClosed();
      e := Event(at, relay.clock, true, Lose);
      Log(e);
    }

    method PublishStatus() returns (sent: bool, ghost e: Event)
      requires Valid()
      modifies `trail, relay, mqtt`up, mqtt`breaks, mqtt`attempts, mqtt`refusals
      ensures Valid() && trail == old(trail) + [e] && e.act.Rest? && !e.failed
      ensures old(relay.direction) == Stop ==> relay.direction == Stop
      ensures mqtt.attempts == old(mqtt.attempts) + 1
      ensures mqtt.refusals == old(mqtt.refusals) + if sent then 0 else 1
      ensures control.Linked(old(mqtt.up), old(mqtt.breaks), old(mqtt.refusals))
      ensures mqtt.up ==> old(mqtt.up)
    {
      ghost var at, before := relay.clock, control.View();
      sent := control.PublishStatus();
      e := Event(at, relay.clock, false, Rest);
      HandlersKeepSound(before, e, 0);
      Log(e);
    }

    method AttemptConnect() returns (connected: bool, ghost e: Event)
      requires Valid()
      modifies `trail, relay, mqtt`up, mqtt`dials, mqtt`connects
      ensures Valid() && trail == old(trail) + [e] && e.act.Rest? && !e.failed
      ensures relay.clock >= old(relay.clock)
      ensures old(relay.direction) == Stop ==> relay.direction == Stop
      ensures mqtt.dials == old(mqtt.dials) + 1
      ensures mqtt.connects == old(mqtt.connects) + if connected then 1 else 0
    {
      ghost var at, before := relay.clock, control.View();
      var most: nat :| most >= 0;
      relay.Elapse(0, most);
      connected := mqtt.Connect();
      e := Event(at, relay.clock, false, Rest);
      HandlersKeepSound(before, e, 0);
      Log(e);
    }

    method Begin(stamp: nat) returns (ghost e: Event)
      requires Valid() && stamp <= relay.clock
      modifies `trail, control, relay
      ensures Valid() && trail == old(trail) + [e] && e.act == Act.Begin(stamp) && !e.failed
      ensures relay.direction == Stop
    {
      e := control.BeginSession(stamp);
      Log(e);
    }

    method TakeTimeout() returns (ghost e: Event)
      requires Valid()
      modifies `trail, control, relay, mqtt`up, mqtt`breaks, mqtt`attempts, mqtt`refusals
      ensures Valid() && trail == old(trail) + [e] && e.act.TakeTimeout?
      ensures relay.clock >= old(relay.clock)
      ensures control.ClosesIf(e.failed, old(mqtt.refusals))
      ensures control.Linked(old(mqtt.up), old(mqtt.breaks), old(mqtt.refusals))
    {
      e := control.HandleTimeoutEvent();
      Log(e);
    }

    method Deliver(message: Message) returns (ghost e: Event)
      requires Valid() && ParsedMessage(message)
      modifies `trail, control, relay, mqtt`up, mqtt`breaks, mqtt`attempts, mqtt`refusals
      ensures Valid() && trail == old(trail) + [e] && Carries(e, message)
      ensures control.ClosesIf(e.failed, old(mqtt.refusals))
      ensures control.Linked(old(mqtt.up), old(mqtt.breaks), old(mqtt.refusals))
    {
      match message {
        case HeightTopic(height) => e := control.HandleHeight(height);
        case ControlTopic(command) => e := control.HandleControl(command);
      }
      Log(e);
    }

    method CheckLease() returns (ghost e: Event)
      requires Valid()
      modifies `trail, control, relay, mqtt`up, mqtt`breaks, mqtt`attempts, mqtt`refusals
      ensures Valid() && trail == old(trail) + [e] && e.act.Tick? && e.at == old(relay.clock)
      ensures control.ClosesIf(e.failed, old(mqtt.refusals))
      ensures control.Linked(old(mqtt.up), old(mqtt.breaks), old(mqtt.refusals))
    {
      e := control.Tick();
      Log(e);
    }

    /** A connection has been made: a session begins, and ends at once if its first messages are not sent. */
    method OpenSession(stamp: nat)
      requires Valid() && stamp <= relay.clock
      modifies this, control, relay, mqtt`up, mqtt`breaks, mqtt`attempts, mqtt`refusals
      ensures Valid() && old(trail) <= trail && relay.direction == Stop
      ensures var n := |old(trail)|; |trail| > n && trail[n].act == Act.Begin(stamp) && !trail[n].failed
      ensures mqtt.refusals == old(mqtt.refusals) ==>
        && |trail| == |old(trail)| + 2 && trail[|old(trail)| + 1].act.Rest? && !trail[|old(trail)| + 1].failed
        && mqttWasConnected && lastHeartbeat == Millis(stamp)
      ensures mqtt.breaks >= old(mqtt.breaks) && mqtt.refusals >= old(mqtt.refusals)
      ensures wifiWasConnected == old(wifiWasConnected) && lastMqttAttempt == old(lastMqttAttempt)
    {
      hide Ordered, Play, Sound, BreaksBeforeMaking, Fire, Apply;
      ghost var begun := Begin(stamp);
      var subscribed: bool := *;
      mqtt.Finish(subscribed);
      if !subscribed {
        ghost var _ := FailClosed();
        return;
      }
      var sent, published := PublishStatus();
      if !sent {
        ghost var _ := FailClosed();
        return;
      }
      mqttWasConnected := true;
      lastHeartbeat := Millis(stamp);
    }

    /**
     * Connecting, which takes any time; the session dates from `stamp`, read at the top of the pass. It is
     * tried exactly when the motor is stopped, Wi-Fi is up, MQTT is down and the last try is long enough
     * ago; once it succeeds a session begins.
     */
    method ConnectMqtt(stamp: nat, wifi: bool)
      requires Valid() && stamp <= relay.clock
      modifies this, control, relay, mqtt
      ensures Valid() && old(trail) <= trail
      ensures old(relay.direction) == Stop ==> relay.direction == Stop
      ensures mqtt.dials == old(mqtt.dials) || mqtt.dials == old(mqtt.dials) + 1
      ensures !old(mqtt.up) ==>
        (mqtt.dials > old(mqtt.dials) <==>
          old(relay.direction) == Stop && wifi
          && (old(lastMqttAttempt) == 0 || (Millis(stamp) - old(lastMqttAttempt)) % WRAP >= RETRY_MS))
      ensures lastMqttAttempt == if mqtt.dials > old(mqtt.dials) then Millis(stamp) else old(lastMqttAttempt)
      ensures var n := |old(trail)|;
        if mqtt.connects > old(mqtt.connects) then
          && |trail| > n + 1 && trail[n + 1].act == Act.Begin(stamp) && !trail[n + 1].failed
          && (mqtt.refusals == old(mqtt.refusals) ==>
                AllSent(trail, n) && |trail| == n + 3 && mqttWasConnected && lastHeartbeat == Millis(stamp))
        else mqttWasConnected == old(mqttWasConnected) && forall i :: n <= i < |trail| ==> trail[i].act.Rest?
      ensures mqtt.breaks >= old(mqtt.breaks) && mqtt.refusals >= old(mqtt.refusals)
      ensures wifiWasConnected == old(wifiWasConnected)
    {
      hide Ordered, Play, Sound, BreaksBeforeMaking, Fire, Apply;
      var up := mqtt.Connected();
      if relay.direction != Stop || !wifi || up
         || (lastMqttAttempt != 0 && !Elapsed(Millis(stamp), lastMqttAttempt, RETRY_MS)) {
        return;
      }
      lastMqttAttempt := Millis(stamp);
      var connected, dialled := AttemptConnect();
      if !connected { return; }
      OpenSession(stamp);
    }

    method Heartbeat(controlNow: uint32)
      requires Valid()
      modifies this, control, relay, mqtt`up, mqtt`breaks, mqtt`attempts, mqtt`refusals
      ensures Valid() && old(trail) <= trail
      ensures forall i :: |old(trail)| <= i < |trail| ==> trail[i].act.Rest? || (trail[i].act.Lose? && trail[i].failed)
      ensures mqtt.refusals == old(mqtt.refusals) ==> AllSent(trail, |old(trail)|)
      ensures if (controlNow - old(lastHeartbeat)) % WRAP < HEARTBEAT_MS
              then trail == old(trail) && lastHeartbeat == old(lastHeartbeat)
              else mqtt.up ==>
                |trail| == |old(trail)| + 1 && trail[|old(trail)|].act.Rest? && lastHeartbeat == controlNow
      ensures control.Linked(old(mqtt.up), old(mqtt.breaks), old(mqtt.refusals))
      ensures wifiWasConnected == old(wifiWasConnected) && mqttWasConnected == old(mqttWasConnected)
    {
      hide Ordered, Play, Sound, BreaksBeforeMaking, Fire, Apply;
      var up := mqtt.Connected();
      if up && Elapsed(controlNow, lastHeartbeat, HEARTBEAT_MS) {
        var sent, published := PublishStatus();
        if !sent {
          ghost var _ := FailClosed();
        }
        lastHeartbeat := controlNow;
      }
    }

    /** mqtt.loop() delivers its message, if any; then the lease check and the heartbeat, if it is time. */
    method Serve(incoming: Option<Message>)
      requires Valid() && (incoming.Some? ==> ParsedMessage(incoming.value))
      modifies this, control, relay, mqtt`up, mqtt`breaks, mqtt`attempts, mqtt`refusals
      ensures Valid() && old(trail) <= trail && Served(trail, |old(trail)|, incoming)
      ensures mqtt.refusals == old(mqtt.refusals) ==> AllSent(trail, |old(trail)|)
      ensures control.Linked(old(mqtt.up), old(mqtt.breaks), old(mqtt.refusals))
      ensures var k := |old(trail)| + if incoming.Some? then 1 else 0;
        if (Millis(trail[k].at) - old(lastHeartbeat)) % WRAP < HEARTBEAT_MS
        then |trail| == k + 1 && lastHeartbeat == old(lastHeartbeat)
        else mqtt.up ==> |trail| == k + 2 && trail[k + 1].act.Rest? && lastHeartbeat == Millis(trail[k].at)
      ensures wifiWasConnected == old(wifiWasConnected) && mqttWasConnected == old(mqttWasConnected)
    {
      hide Ordered, Play, Sound, BreaksBeforeMaking, Fire, Apply;
      if incoming.Some? {
        ghost var delivered := Deliver(incoming.value);
      }
      var controlNow := relay.clock;
      ghost var ticked := CheckLease();
      Heartbeat(Millis(controlNow));
    }

    /** Wi-Fi is lost. */
    method LoseWifi()
      requires Valid()
      modifies this, control, relay, mqtt`up, mqtt`breaks
      ensures Valid() && old(trail) <= trail && relay.direction == Stop
      ensures old(wifiWasConnected) ==> |trail| > |old(trail)| && trail[|old(trail)|].act.Lose?
    {
      hide Ordered, Play, Sound, BreaksBeforeMaking, Fire, Apply;
      if wifiWasConnected || relay.direction != Stop {
        ghost var _ := Drop();
      }
      wifiWasConnected := false;
      mqttWasConnected := false;
      mqtt.Disconnect();
    }

    /** The MQTT connection is down. */
    method LoseMqtt(now: nat)
      requires Valid() && now <= relay.clock
      modifies this, control, relay, mqtt
      ensures Valid() && old(trail) <= trail && relay.direction == Stop
      ensures old(mqttWasConnected) ==> |trail| > |old(trail)| && trail[|old(trail)|].act.Lose?
      ensures mqtt.breaks >= old(mqtt.breaks) && mqtt.refusals >= old(mqtt.refusals)
      ensures !old(mqtt.up) ==>
        (mqtt.dials > old(mqtt.dials) <==>
          old(lastMqttAttempt) == 0 || (Millis(now) - old(lastMqttAttempt)) % WRAP >= RETRY_MS)
      ensures mqtt.connects > old(mqtt.connects) ==>
        exists i :: |old(trail)| < i < |trail| && trail[i].act == Act.Begin(now)
    {
      hide Ordered, Play, Sound, BreaksBeforeMaking, Fire, Apply;
      if mqttWasConnected || relay.direction != Stop {
        ghost var _ := Drop();
      }
      mqttWasConnected := false;
      ghost var before := trail;
      ConnectMqtt(now, true);
      assert mqtt.connects > old(mqtt.connects) ==> trail[|before| + 1].act == Act.Begin(now);
    }

    /**
     * One pass. `alive` is what mqtt.loop() answers, `incoming` the message it delivers. A pass with both
     * links up serves the message; a connection that was up and neither broke nor refused a message is.
     */
    method Loop(wifi: bool, alive: bool, incoming: Option<Message>) returns (connected: bool)
      requires Valid() && (incoming.Some? ==> ParsedMessage(incoming.value))
      modifies this, control, relay, mqtt
      ensures Valid() && old(trail) <= trail
      ensures |old(trail)| < |trail| && trail[|old(trail)|].act.TakeTimeout?
      ensures relay.direction != Stop ==> wifi && connected && alive
      ensures if wifi && connected && alive then Served(trail, |old(trail)| + 1, incoming) else relay.direction == Stop
      ensures wifi && connected && alive && mqtt.refusals == old(mqtt.refusals) ==> AllSent(trail, |old(trail)|)
      ensures wifi && old(mqtt.up) && mqtt.breaks == old(mqtt.breaks) && mqtt.refusals == old(mqtt.refusals) ==>
        connected
      ensures wifi && connected && !alive ==> |trail| > |old(trail)| + 1 && trail[|old(trail)| + 1].act.Lose?
      ensures wifi && !connected && (old(lastMqttAttempt) == 0
                || (Millis(old(relay.clock)) - old(lastMqttAttempt)) % WRAP >= RETRY_MS) ==>
        mqtt.dials > old(mqtt.dials)
    {
      hide Ordered, Play, Sound, BreaksBeforeMaking, Fire, Apply;
      var now := relay.clock;
      ghost var taken := TakeTimeout();
      connected := false;
      if !wifi {
        LoseWifi();
        return;
      }
      wifiWasConnected := true;
      connected := mqtt.Connected();
      if !connected {
        LoseMqtt(now);
        return;
      }
      if !alive {
        ghost var _ := Drop();
        mqtt.Disconnect();
        mqttWasConnected := false;
        return;
      }
      Serve(incoming);
    }

    /** Whatever the network does, a motor that is on obeys the limit of its direction, for 500 ms at most. */
    lemma MotorIsJustified()
      requires Valid() && relay.direction != Stop
      ensures var r := Play(trail);
        && Moved(r.history)
        && DirectionAllowed(Latest(r.history).height, relay.direction == Up)
        && relay.timer.Some? && relay.clock <= relay.timer.value <= relay.clock + MAX_HOLD_MS
    {
      RunHolds(trail, 5 * relay.jitter);
    }

    /**
     * However long the loop has stalled, before now or from now to t: a motor that is on at t follows a
     * height that moved within the session less than lease, break and longest hold before, unless some
     * command came a whole turn of the clock after the last change.
     */
    lemma MotorFollowsTrail(t: nat)
      requires Valid() && Prompt(trail) && relay.clock <= t
      requires Fire(relay.View(), t).direction != Stop
      ensures var h := Play(trail).history;
        exists i :: Differs(h, i) && h[i].at <= t < h[i].at + Reach(5 * relay.jitter)
          && (forall j :: Differs(h, j) ==> j <= i)
    {
      hide Play, Ordered, Prompt, Sound, BreaksBeforeMaking;
      assert Play(trail).handler.relay == relay.View();
      MotorFollowsHeight(trail, 5 * relay.jitter, t);
    }

    /** The motor is on at t exactly while an obeyed move command stands and the hold it asked for lasts. */
    lemma OrderOfTrail(direction: Direction, t: nat)
      requires Valid() && direction != Stop && relay.clock <= t
      ensures OnAt(relay.View(), t, direction) <==>
        exists k: nat :: Stands(trail, k, direction) && t < EndOf(trail[k])
    {
      hide Play, Ordered, Sound, BreaksBeforeMaking;
      assert Play(trail).handler.relay == relay.View();
      HoldIsGiven(trail, direction, 5 * relay.jitter, t);
    }

    /** At every moment readiness is wrong exactly when the clock misreads the last change. */
    lemma ReadinessOfTrail()
      requires Valid()
      ensures Misread(Play(trail), relay.clock) <==>
        IsReady(control.Flags(), Millis(relay.clock)) != (control.armed && Fresh(Play(trail), relay.clock))
    {
      hide Play, Ordered, Sound, IsReady, BreaksBeforeMaking;
      assert Play(trail).handler.session == control.Flags();
      ReadinessIsExact(trail, 5 * relay.jitter, relay.clock);
    }
  }
}
