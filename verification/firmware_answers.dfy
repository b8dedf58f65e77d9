// When the firmware must act: a move command that may be obeyed switches the motor on for exactly the time
// asked for, and nothing but a reason to stop takes it off earlier.
module FirmwareAnswers {
  import opened Policy
  import opened Relays
  import opened Sessions
  import opened FirmwareRuns

  /** The session is armed and fresh on its own clock, and its height leaves room in this direction. */
  predicate MayMove(s: Session, at: nat, direction: Direction) {
    && s.armed && s.distinct && s.height.Some?
    && (Millis(at) - s.distinctAt) % WRAP < HEIGHT_LEASE_MS
    && MIN_MEASURED_CM <= s.height.value <= MAX_MEASURED_CM
    && (direction == Up ==> s.height.value < MAX_CONTROL_CM)
    && (direction == Down ==> s.height.value > MIN_CONTROL_CM)
  }

  /** The motor is on in this direction, and its timer will stop it at `end`; or it did so by `now`. */
  predicate OnUntil(r: Relay, direction: Direction, end: nat, now: nat) {
    if now < end then r.direction == direction && r.timer == Some(end)
    else r.direction == Stop && r.timer == None && r.pending
  }

  /** Nobody has touched the motor: it goes on, up to its timer. */
  predicate Undisturbed(before: Relay, after: Relay, now: nat) {
    if before.timer.None? || now < before.timer.value then
      after.direction == before.direction && after.timer == before.timer
    else after.direction == Stop && after.timer == None
  }

  /** The motor will still be on in this direction at time t. */
  predicate OnAt(r: Relay, t: nat, direction: Direction) {
    r.direction == direction && (r.timer.Some? ==> t < r.timer.value)
  }

  predicate Off(r: Relay) {
    r.direction == Stop && r.timer == None && !r.pending
  }

  /** What a control message makes of the motor. */
  predicate Obeyed(s: Session, e: Event, r: Relay)
    requires e.act.Control?
  {
    var c := e.act.command;
    if !e.failed && c.Move? && MayMove(s, e.at, c.direction)
    then OnUntil(r, c.direction, e.act.armed + c.holdMs, e.until)
    else Off(r)
  }

  /**
   * A control message, unless its status cannot be published: a move that may be obeyed is, whether it
   * starts, extends or switches, for the hold asked for from the moment the timer is set; everything else
   * stops the motor.
   */
  lemma CommandIsObeyed(h: Handler, e: Event, jitter: nat)
    requires Parsed(e) && Timely(e, jitter) && e.act.Control?
    ensures Obeyed(h.session, e, Apply(h, e).relay)
    ensures !e.failed ==> Apply(h, e).session == h.session
  {
  }

  /** The tick that finds the lease over, and no other one, stops the motor. */
  lemma TickStopsExactly(h: Handler, e: Event)
    requires e.act.Tick?
    ensures var s, r := h.session, Apply(h, e).relay;
      if e.failed || (s.armed && (Millis(e.at) - s.distinctAt) % WRAP >= HEIGHT_LEASE_MS) then Off(r)
      else Undisturbed(h.relay, r, e.until)
  {
  }

  /** A height stops the motor if it is invalid, or new and at the limit the motor is moving to. */
  lemma HeightStopsExactly(h: Handler, e: Event, jitter: nat)
    requires e.act.Height? && Timely(e, jitter)
    ensures var s, r, m := h.session, Apply(h, e).relay, e.act.message;
      var on := if h.relay.timer.Some? && e.act.seen >= h.relay.timer.value then Stop else h.relay.direction;
      if e.failed || m.BadHeight? then Off(r)
      else if s.baseline && m.observedAt != s.observedAt
              && ((on == Up && m.height >= MAX_CONTROL_CM) || (on == Down && m.height <= MIN_CONTROL_CM)) then Off(r)
      else Undisturbed(h.relay, r, e.until)
  {
  }

  lemma OthersStopExactly(h: Handler, e: Event, jitter: nat)
    requires !e.act.Control? && !e.act.Tick? && !e.act.Height? && Timely(e, jitter)
    ensures if e.failed || e.act.Begin? || e.act.Lose? then Off(Apply(h, e).relay)
            else Undisturbed(h.relay, Apply(h, e).relay, e.until)
  {
  }

  // ---- Whole runs

  /** Event k is a move command in this direction that had to be obeyed. */
  predicate OrdersAt(events: seq<Event>, k: nat, direction: Direction)
    requires k < |events|
  {
    var e := events[k];
    && e.act.Control? && !e.failed
    && e.act.command.Move? && e.act.command.direction == direction
    && MayMove(Play(events[..k]).handler.session, e.at, direction)
  }

  /** Event k gives a motor moving in this direction a reason to stop, or another order. */
  predicate EndsAt(events: seq<Event>, k: nat, direction: Direction)
    requires k < |events|
  {
    var e, s := events[k], Play(events[..k]).handler.session;
    || e.failed || e.act.Begin? || e.act.Lose? || e.act.Control?
    || (e.act.Tick? && s.armed && (Millis(e.at) - s.distinctAt) % WRAP >= HEIGHT_LEASE_MS)
    || (e.act.Height? && e.act.message.BadHeight?)
    || (e.act.Height? && e.act.message.Reading? && s.baseline && e.act.message.observedAt != s.observedAt
        && ((direction == Up && e.act.message.height >= MAX_CONTROL_CM)
            || (direction == Down && e.act.message.height <= MIN_CONTROL_CM)))
  }

  /** The order of event k stands after all these events. */
  predicate Stands(events: seq<Event>, k: nat, direction: Direction) {
    k < |events| && OrdersAt(events, k, direction) && forall m: nat :: k < m < |events| ==> !EndsAt(events, m, direction)
  }

  function EndOf(e: Event): nat
    requires e.act.Control? && e.act.command.Move?
  {
    e.act.armed + e.act.command.holdMs
  }

  /** The relay is what the standing order, if any, makes of it. */
  ghost predicate Follows(events: seq<Event>, direction: Direction) {
    var r := Play(events);
    && (r.handler.relay.direction == direction ==>
          exists k: nat :: Stands(events, k, direction) && r.now < EndOf(events[k]) && r.handler.relay.timer == Some(EndOf(events[k])))
    && (forall k: nat :: Stands(events, k, direction) && r.now < EndOf(events[k]) ==>
          r.handler.relay.direction == direction && r.handler.relay.timer == Some(EndOf(events[k])))
  }

  lemma EarlierIsSame(events: seq<Event>, e: Event, k: nat, direction: Direction)
    requires k < |events|
    ensures OrdersAt(events + [e], k, direction) <==> OrdersAt(events, k, direction)
    ensures EndsAt(events + [e], k, direction) <==> EndsAt(events, k, direction)
  {
    assert (events + [e])[..k] == events[..k];
  }

  lemma StandsAppend(events: seq<Event>, e: Event, k: nat, direction: Direction)
    ensures Stands(events + [e], k, direction) <==>
      if k == |events| then OrdersAt(events + [e], |events|, direction)
      else Stands(events, k, direction) && !EndsAt(events + [e], |events|, direction)
  {
    hide OrdersAt, EndsAt;
    forall m: nat | m < |events|
      ensures OrdersAt(events + [e], m, direction) <==> OrdersAt(events, m, direction)
      ensures EndsAt(events + [e], m, direction) <==> EndsAt(events, m, direction)
    {
      EarlierIsSame(events, e, m, direction);
    }
    if k < |events| && Stands(events, k, direction) && !EndsAt(events + [e], |events|, direction) {
      forall m: nat | k < m < |events + [e]| ensures !EndsAt(events + [e], m, direction) {}
    }
    if k < |events| && Stands(events + [e], k, direction) {
      forall m: nat | k < m < |events| ensures !EndsAt(events, m, direction) {
        assert !EndsAt(events + [e], m, direction);
      }
    }
  }

  /** What one event does to a motor of this direction. */
  lemma {:induction false} EventFollows(events: seq<Event>, e: Event, direction: Direction, jitter: nat)
    requires direction != Stop && Parsed(e) && Timely(e, jitter)
    requires Guarded(Play(events).handler.relay)
    ensures var more, n := events + [e], |events|;
      var was, r := Play(events).handler.relay, Play(more).handler.relay;
      if OrdersAt(more, n, direction) then EndsAt(more, n, direction) && OnUntil(r, direction, EndOf(e), e.until)
      else if EndsAt(more, n, direction) || was.direction != direction then r.direction != direction
      else Undisturbed(was, r, e.until)
  {
    assert (events + [e])[..|events|] == events;
    var h := Play(events).handler;
    assert Play(events + [e]).handler == Apply(h, e);
    hide Play, After, Apply;
    match e.act
    case Control(_, _, _) => CommandIsObeyed(h, e, jitter);
    case Tick => TickStopsExactly(h, e);
    case Height(_, _) => HeightStopsExactly(h, e, jitter);
    case _ => OthersStopExactly(h, e, jitter);
  }

  lemma EventKeepsFollowing(events: seq<Event>, e: Event, direction: Direction, jitter: nat)
    requires direction != Stop && Parsed(e) && Timely(e, jitter) && Play(events).now <= e.at
    requires Guarded(Play(events).handler.relay) && Follows(events, direction)
    ensures Follows(events + [e], direction)
  {
    var more, n := events + [e], |events|;
    EventFollows(events, e, direction, jitter);
    assert Play(more).now == e.until;
    hide OrdersAt, EndsAt, Play;
    forall k: nat ensures Stands(more, k, direction) <==>
        if k == n then OrdersAt(more, n, direction) else Stands(events, k, direction) && !EndsAt(more, n, direction)
    {
      StandsAppend(events, e, k, direction);
    }
    hide Stands;
    if Play(more).handler.relay.direction == direction {
      if OrdersAt(more, n, direction) {
        assert Stands(more, n, direction);
      } else {
        var k: nat :| Stands(events, k, direction) && Play(events).handler.relay.timer == Some(EndOf(events[k]));
        assert Stands(more, k, direction) && more[k] == events[k];
      }
    }
  }

  lemma {:induction false} RunFollows(events: seq<Event>, direction: Direction, jitter: nat)
    requires direction != Stop && Ordered(events, jitter)
    ensures Follows(events, direction)
  {
    if events != [] {
      var n := |events| - 1;
      RunFollows(events[..n], direction, jitter);
      RunIsSound(events[..n], jitter);
      assert events == events[..n] + [events[n]];
      EventKeepsFollowing(events[..n], events[n], direction, jitter);
    }
  }

  /**
   * In every run and at every later time t, the motor is on in a direction if and only if the last
   * move command that had to be obeyed asks for it, nothing has ended it since, and the hold it asks for,
   * counted from the moment the timer was set, is not over.
   */
  lemma {:induction false} HoldIsGiven(events: seq<Event>, direction: Direction, jitter: nat, t: nat)
    requires direction != Stop && Ordered(events, jitter) && Play(events).now <= t
    ensures OnAt(Play(events).handler.relay, t, direction) <==>
      exists k: nat :: Stands(events, k, direction) && t < EndOf(events[k])
  {
    RunFollows(events, direction, jitter);
    hide Stands;
  }
}
