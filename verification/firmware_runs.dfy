// Whole runs of the relay firmware on unbounded time: what the wrapping 32-bit clock, the arming
// flags and the hardware timer amount to over every sequence of handler calls.
module FirmwareRuns {
  import opened Policy
  import opened Relays
  import opened Sessions

  /** A valid height received in the current session. */
  datatype Seen = Seen(at: nat, observedAt: string, height: real)

  /**
   * A handler state together with true times: the time its session's clock was captured, the heights
   * received since the session was begun or invalidated, and the last time tick() ran.
   */
  datatype Run = Run(handler: Handler, start: nat, history: seq<Seen>, polled: nat, now: nat)

  function Boot(): Run {
    Run(Handler(BeginSession(0), Stopped()), 0, [], 0, 0)
  }

  function After(r: Run, e: Event): Run {
    Run(
      Apply(r.handler, e),
      if e.act.Begin? then e.act.stamp else r.start,
      if e.failed || e.act.Begin? || e.act.Lose? then []
      else match e.act
           case Height(Reading(observedAt, height), _) => r.history + [Seen(e.at, observedAt, height)]
           case Height(BadHeight, _) => []
           case _ => r.history,
      if e.act.Begin? then e.until else if e.act.Tick? then e.at else r.polled,
      e.until)
  }

  /** While a session holds a height, some tick ran in the last `gap` milliseconds. */
  predicate Next(r: Run, e: Event, gap: nat, jitter: nat) {
    && r.now <= e.at
    && Timely(e, jitter)
    && Parsed(e)
    && (r.handler.session.baseline ==> e.at <= r.polled + gap)
  }

  function Play(events: seq<Event>): Run {
    if events == [] then Boot() else After(Play(events[..|events| - 1]), events[|events| - 1])
  }

  predicate Legal(events: seq<Event>, gap: nat, jitter: nat) {
    events == [] ||
    var n := |events| - 1;
    Legal(events[..n], gap, jitter) && Next(Play(events[..n]), events[n], gap, jitter)
  }

  /** A run in which nothing is said of the ticks. */
  predicate Ordered(events: seq<Event>, jitter: nat) {
    events == [] ||
    var n := |events| - 1;
    var e := events[n];
    Ordered(events[..n], jitter) && Play(events[..n]).now <= e.at && Timely(e, jitter) && Parsed(e)
  }

  /** The largest gap for which the clock can be trusted: the lease less the arming delay. */
  const SAFE_GAP_MS: nat := HEIGHT_LEASE_MS - ARM_DELAY_MS

  // ---- A declarative reading of the messages of a session

  predicate Differs(history: seq<Seen>, i: int) {
    0 < i < |history| && history[i].observedAt != history[i - 1].observedAt
  }

  /** The last message that differs from the one before it; 0 if there is none. */
  function LastChange(history: seq<Seen>): (k: nat)
    requires history != []
    ensures k < |history|
  {
    var n := |history| - 1;
    if n == 0 then 0 else if Differs(history, n) then n else LastChange(history[..n])
  }

  lemma {:induction false} LastChangeIsLatest(history: seq<Seen>, j: nat)
    requires history != [] && j < |history|
    ensures LastChange(history) == 0 || Differs(history, LastChange(history))
    ensures Differs(history, j) ==> j <= LastChange(history)
  {
    var n := |history| - 1;
    if 0 < n && !Differs(history, n) {
      LastChangeIsLatest(history[..n], if j < n then j else 0);
    }
  }

  /** The session has seen a height differ from its predecessor, last at message LastChange. */
  predicate Moved(history: seq<Seen>) {
    history != [] && LastChange(history) > 0
  }

  /** The message that last renewed the lease, or the baseline if none has. */
  function Latest(history: seq<Seen>): Seen
    requires history != []
  {
    history[LastChange(history)]
  }

  /** A further message becomes the latest exactly when it differs from its predecessor. */
  lemma LatestOfAppend(history: seq<Seen>, m: Seen)
    ensures var more := history + [m];
      if history == [] then !Moved(more) && Latest(more) == m
      else if m.observedAt != history[|history| - 1].observedAt then Moved(more) && Latest(more) == m
      else Moved(more) == Moved(history) && Latest(more) == Latest(history)
  {
  }

  predicate Fresh(r: Run, now: nat) {
    Moved(r.history) && now - Latest(r.history).at < HEIGHT_LEASE_MS
  }

  // ---- The run invariant

  /** The flags of the session in terms of the messages of the session. */
  predicate Reads(r: Run) {
    var s := r.handler.session;
    var h := r.history;
    && r.start <= r.now && r.polled <= r.now
    && s.startedAt == Millis(r.start)
    && (s.baseline <==> h != [])
    && (s.distinct ==> Moved(h))
    && (h != [] ==>
          && s.observedAt == h[|h| - 1].observedAt
          && s.height == Some(Latest(h).height)
          && r.start <= Latest(h).at <= r.now
          && (Moved(h) ==> s.distinctAt == Millis(Latest(h).at)))
  }

  /** At this time the wrapping clock says that the arming delay has not passed yet. */
  predicate Arming(now: nat, start: nat) {
    (now - start) % WRAP < ARM_DELAY_MS
  }

  /** The unbounded age of the last change, given that ticks keep coming. */
  predicate Aging(r: Run) {
    var s := r.handler.session;
    s.distinct ==>
      && Moved(r.history)
      && (var d := Latest(r.history).at;
          && r.polled < d + HEIGHT_LEASE_MS
          && (!s.armed ==>
                && Arming(d, r.start)
                && (d <= r.polled ==> Arming(r.polled, r.start))))
  }

  /** A lease still running has not been dropped. */
  predicate Kept(r: Run) {
    Moved(r.history) && !r.handler.session.distinct ==> r.polled >= Latest(r.history).at + HEIGHT_LEASE_MS
  }

  /** The time of the last tick or change. */
  function LastLook(r: Run): nat
    requires r.history != []
  {
    if r.polled > Latest(r.history).at then r.polled else Latest(r.history).at
  }

  /**
   * An armed session is at least the arming delay old. While it is younger than one turn of the clock it
   * is armed exactly when no tick has found the last change a lease old, and a change or a tick has found
   * the delay over.
   */
  predicate Arms(r: Run) {
    var armed := r.handler.session.armed;
    && (armed ==> r.now - r.start >= ARM_DELAY_MS)
    && (r.now - r.start < WRAP ==>
          (armed <==>
             && Moved(r.history)
             && r.polled < Latest(r.history).at + HEIGHT_LEASE_MS
             && LastLook(r) - r.start >= ARM_DELAY_MS))
  }

  /** What the session is, in every run. */
  predicate Told(r: Run) {
    Sound(r.handler) && Reads(r) && Kept(r) && Arms(r)
  }

  lemma ReadingReads(r: Run, e: Event)
    requires Reads(r) && r.now <= e.at <= e.until
    requires !e.failed && e.act.Height? && e.act.message.Reading?
    ensures Reads(After(r, e))
  {
  }

  lemma EventReads(r: Run, e: Event, jitter: nat)
    requires Reads(r) && r.now <= e.at && Timely(e, jitter)
    ensures Reads(After(r, e))
  {
    if !e.failed && e.act.Height? && e.act.message.Reading? { ReadingReads(r, e); }
  }

  /** Two times of one arming window that are less than the lease apart are less than the delay apart. */
  lemma SameWindow(a: nat, b: nat, start: nat)
    requires start <= a <= b < a + HEIGHT_LEASE_MS && Arming(a, start) && Arming(b, start)
    ensures b - a < ARM_DELAY_MS
  {
  }

  lemma ArmDelayIsTrue(now: nat, start: nat)
    requires start <= now
    ensures Elapsed(Millis(now), Millis(start), ARM_DELAY_MS) <==> !Arming(now, start)
    ensures !Arming(now, start) ==> now - start >= ARM_DELAY_MS
  {
  }

  lemma LeaseTestIsTrue(now: nat, since: nat)
    requires since <= now < since + WRAP
    ensures Elapsed(Millis(now), Millis(since), HEIGHT_LEASE_MS) <==> now - since >= HEIGHT_LEASE_MS
  {
  }

  lemma TickAges(r: Run, e: Event, jitter: nat)
    requires Sound(r.handler) && Reads(r) && Aging(r) && Next(r, e, SAFE_GAP_MS, jitter)
    requires e.act.Tick? && !e.failed
    ensures Aging(After(r, e))
  {
    hide Elapsed, Millis, LastChange, Arming;
    var s := r.handler.session;
    if s.distinct {
      var d := Latest(r.history).at;
      LeaseTestIsTrue(e.at, d);
      ArmDelayIsTrue(e.at, r.start);
      if !s.armed && d <= r.polled { SameWindow(d, r.polled, r.start); }
    }
  }

  lemma ReadingAges(r: Run, e: Event, jitter: nat)
    requires Sound(r.handler) && Reads(r) && Aging(r) && Next(r, e, SAFE_GAP_MS, jitter)
    requires !e.failed && e.act.Height? && e.act.message.Reading?
    ensures Aging(After(r, e))
  {
    hide Elapsed, Millis, LastChange, Arming;
    var m := Seen(e.at, e.act.message.observedAt, e.act.message.height);
    LatestOfAppend(r.history, m);
    LeaseTestIsTrue(e.at, e.at);
    ArmDelayIsTrue(e.at, r.start);
  }

  lemma EventAges(r: Run, e: Event, jitter: nat)
    requires Sound(r.handler) && Reads(r) && Aging(r) && Next(r, e, SAFE_GAP_MS, jitter)
    ensures Aging(After(r, e))
  {
    if !e.failed && e.act.Height? && e.act.message.Reading? { ReadingAges(r, e, jitter); }
    else if !e.failed && e.act.Tick? { TickAges(r, e, jitter); }
  }

  lemma EventKeeps(r: Run, e: Event, jitter: nat)
    requires Reads(r) && Kept(r) && r.now <= e.at && Timely(e, jitter)
    ensures Kept(After(r, e))
  {
    hide Elapsed, Millis, LastChange;
    if !e.failed && e.act.Height? && e.act.message.Reading? {
      var m := Seen(e.at, e.act.message.observedAt, e.act.message.height);
      LatestOfAppend(r.history, m);
    } else if !e.failed && e.act.Tick? && Moved(r.history) {
      ElapsedCountsModulo(e.at, Latest(r.history).at, HEIGHT_LEASE_MS);
    }
  }

  lemma TickArms(r: Run, e: Event)
    requires Told(r) && r.now <= e.at <= e.until && e.act.Tick? && !e.failed
    ensures Arms(After(r, e))
  {
    hide Elapsed, Millis, LastChange;
    var s := r.handler.session;
    ArmDelayIsTrue(e.at, r.start);
    if Moved(r.history) {
      assert s.distinctAt == Millis(Latest(r.history).at);
      ElapsedCountsModulo(e.at, Latest(r.history).at, HEIGHT_LEASE_MS);
    }
  }

  lemma ReadingArms(r: Run, e: Event)
    requires Told(r) && r.now <= e.at <= e.until
    requires !e.failed && e.act.Height? && e.act.message.Reading?
    ensures Arms(After(r, e))
  {
    hide Elapsed, Millis, LastChange;
    LatestOfAppend(r.history, Seen(e.at, e.act.message.observedAt, e.act.message.height));
    ArmDelayIsTrue(e.at, r.start);
    LeaseTestIsTrue(e.at, e.at);
  }

  lemma EventTells(r: Run, e: Event, jitter: nat)
    requires Told(r) && r.now <= e.at && Timely(e, jitter) && Parsed(e)
    ensures Told(After(r, e))
  {
    HandlersKeepSound(r.handler, e, jitter);
    EventReads(r, e, jitter);
    EventKeeps(r, e, jitter);
    if !e.failed && e.act.Height? && e.act.message.Reading? {
      ReadingArms(r, e);
    } else if !e.failed && e.act.Tick? {
      TickArms(r, e);
    } else {
      hide LastChange, Elapsed, Millis, Sound, Reads, Kept;
    }
  }

  // ---- The motor

  /** The longest the motor runs on after the last change of the height. */
  function Reach(jitter: nat): nat {
    HEIGHT_LEASE_MS + BREAK_BEFORE_MAKE_MS + jitter + MAX_HOLD_MS
  }

  predicate Timed(r: Run, jitter: nat) {
    r.handler.relay.direction != Stop ==>
      && r.handler.relay.timer.Some?
      && Moved(r.history)
      && r.handler.relay.timer.value < Latest(r.history).at + Reach(jitter)
  }

  /** Outputs that are on go off within the longest hold. */
  predicate Brief(r: Run) {
    r.handler.relay.direction != Stop ==>
      r.handler.relay.timer.Some? && r.handler.relay.timer.value <= r.now + MAX_HOLD_MS
  }

  /** The wrapping clock takes an old change for a fresh one. */
  predicate Misread(r: Run, now: nat) {
    && r.handler.session.armed && r.handler.session.distinct && Moved(r.history)
    && now - Latest(r.history).at >= WRAP
    && (now - Latest(r.history).at) % WRAP < HEIGHT_LEASE_MS
  }

  /** Readiness on the wrapping clock differs from the same test on unbounded time exactly then. */
  lemma ReadyUnlessMisread(r: Run, now: nat)
    requires Told(r) && r.now <= now
    ensures IsReady(r.handler.session, Millis(now)) != (r.handler.session.armed && Fresh(r, now)) <==> Misread(r, now)
  {
    hide Millis, Elapsed, LastChange;
    if Moved(r.history) { ElapsedCountsModulo(now, Latest(r.history).at, HEIGHT_LEASE_MS); }
  }

  /** No move command arrives while the clock misreads the last change. */
  predicate Honest(events: seq<Event>) {
    events == [] ||
    var n := |events| - 1;
    Honest(events[..n]) && HonestNext(Play(events[..n]), events[n])
  }

  predicate HonestNext(r: Run, e: Event) {
    e.act.Control? && e.act.command.Move? ==> !Misread(r, e.at)
  }

  /** Every move command arrives within one turn of the clock after the last change. */
  predicate Prompt(events: seq<Event>) {
    events == [] ||
    var n := |events| - 1;
    Prompt(events[..n]) && PromptNext(Play(events[..n]), events[n])
  }

  predicate PromptNext(r: Run, e: Event) {
    e.act.Control? && e.act.command.Move? && Moved(r.history) ==> e.at < Latest(r.history).at + WRAP
  }

  lemma {:induction false} PromptIsHonest(events: seq<Event>)
    requires Prompt(events)
    ensures Honest(events)
  {
    if events != [] { PromptIsHonest(events[..|events| - 1]); }
  }

  lemma EventTimes(r: Run, e: Event, jitter: nat)
    requires Told(r) && Timed(r, jitter) && HonestNext(r, e)
    requires r.now <= e.at && Timely(e, jitter) && Parsed(e)
    ensures Timed(After(r, e), jitter)
  {
    if r.history != [] { LatestIsPast(r); }
    hide Elapsed, Millis, LastChange, Reads, Kept, Arms;
    match e.act
    case Height(Reading(observedAt, height), seen) =>
      LatestOfAppend(r.history, Seen(e.at, observedAt, height));
    case Control(command, cut, armed) =>
      ReadyUnlessMisread(r, e.at);
    case _ =>
  }

  lemma LatestIsPast(r: Run)
    requires Reads(r) && r.history != []
    ensures Latest(r.history).at <= r.now
  {
  }

  lemma EventIsBrief(r: Run, e: Event, jitter: nat)
    requires Brief(r) && r.now <= e.at && Timely(e, jitter) && Parsed(e)
    ensures Brief(After(r, e))
  {
    hide IsReady, BoundaryAllows, UpdateArming;
  }

  // ---- The results

  /** Everything that holds in every run, however far apart the ticks are. */
  lemma {:induction false} RunHolds(events: seq<Event>, jitter: nat)
    requires Ordered(events, jitter)
    ensures Told(Play(events)) && Brief(Play(events))
    ensures Honest(events) ==> Timed(Play(events), jitter)
  {
    if events != [] {
      var n := |events| - 1;
      var r, e := Play(events[..n]), events[n];
      RunHolds(events[..n], jitter);
      EventTells(r, e, jitter);
      EventIsBrief(r, e, jitter);
      if Honest(events) { EventTimes(r, e, jitter); }
    }
  }

  /**
   * In every run whose commands come within one turn of the clock after the last change, a motor output
   * that is on at time t, however long the main loop has stalled before or since, is on because the
   * session received a height differing from its predecessor less than lease + break + maximum hold
   * before t.
   */
  lemma {:induction false} MotorFollowsHeight(events: seq<Event>, jitter: nat, t: nat)
    requires Ordered(events, jitter) && Prompt(events) && Play(events).now <= t
    requires Fire(Play(events).handler.relay, t).direction != Stop
    ensures var h := Play(events).history;
      exists i :: Differs(h, i) && h[i].at <= t < h[i].at + Reach(jitter) && (forall j :: Differs(h, j) ==> j <= i)
  {
    PromptIsHonest(events);
    HonestMotorFollowsHeight(events, jitter, t);
  }

  /** The same for every run in which no command meets a misread change. */
  lemma {:induction false} HonestMotorFollowsHeight(events: seq<Event>, jitter: nat, t: nat)
    requires Ordered(events, jitter) && Honest(events) && Play(events).now <= t
    requires Fire(Play(events).handler.relay, t).direction != Stop
    ensures var h := Play(events).history;
      exists i :: Differs(h, i) && h[i].at <= t < h[i].at + Reach(jitter) && (forall j :: Differs(h, j) ==> j <= i)
  {
    RunHolds(events, jitter);
    var h := Play(events).history;
    var i := LastChange(h);
    forall j | Differs(h, j) ensures j <= i { LastChangeIsLatest(h, j); }
    LastChangeIsLatest(h, 0);
    assert Differs(h, i);
  }

  /** In every run and at every time, readiness is wrong if and only if the clock misreads the last change. */
  lemma {:induction false} ReadinessIsExact(events: seq<Event>, jitter: nat, now: nat)
    requires Ordered(events, jitter) && Play(events).now <= now
    ensures var r := Play(events);
      IsReady(r.handler.session, Millis(now)) != (r.handler.session.armed && Fresh(r, now)) <==> Misread(r, now)
  {
    RunHolds(events, jitter);
    ReadyUnlessMisread(Play(events), now);
  }

  /** In every run the flags are a reading of the messages since the session began. */
  lemma {:induction false} RunReads(events: seq<Event>, jitter: nat)
    requires Ordered(events, jitter)
    ensures var r := Play(events); Reads(r) && Kept(r) && Arms(r)
  {
    RunHolds(events, jitter);
  }

  /** The handler invariant holds in every run, and an output that is on has at most the longest hold left. */
  lemma {:induction false} RunIsSound(events: seq<Event>, jitter: nat)
    requires Ordered(events, jitter)
    ensures Sound(Play(events).handler) && Brief(Play(events))
  {
    RunHolds(events, jitter);
  }

  /**
   * After a tick of any run, readiness is a function of the messages since the session began: in a session
   * younger than one turn of the clock, the last change is within the lease and the session is old enough.
   * In an older one only a wrapped arming window can postpone it, and only a misread change can fake it.
   */
  lemma {:induction false} ReadyIsHistory(events: seq<Event>, jitter: nat)
    requires Ordered(events, jitter) && events != []
    requires var e := events[|events| - 1]; e.act.Tick? && !e.failed
    ensures var r, now := Play(events), events[|events| - 1].at;
      && (Play(events).now - r.start < WRAP ==>
            (IsReady(r.handler.session, Millis(now)) <==> Fresh(r, now) && now - r.start >= ARM_DELAY_MS))
      && (Fresh(r, now) && !Arming(now, r.start) ==> IsReady(r.handler.session, Millis(now)))
      && (IsReady(r.handler.session, Millis(now)) && !Misread(r, now) ==>
            Fresh(r, now) && now - r.start >= ARM_DELAY_MS)
  {
    var n := |events| - 1;
    RunHolds(events[..n], jitter);
    RunHolds(events, jitter);
    TickTellsAll(Play(events[..n]), events[n]);
  }

  lemma TickTellsAll(r0: Run, e: Event)
    requires Told(r0) && r0.now <= e.at <= e.until && e.act.Tick? && !e.failed && Told(After(r0, e))
    ensures var r, now := After(r0, e), e.at;
      && (r.now - r.start < WRAP ==>
            (IsReady(r.handler.session, Millis(now)) <==> Fresh(r, now) && now - r.start >= ARM_DELAY_MS))
      && (Fresh(r, now) && !Arming(now, r.start) ==> IsReady(r.handler.session, Millis(now)))
      && (IsReady(r.handler.session, Millis(now)) && !Misread(r, now) ==>
            Fresh(r, now) && now - r.start >= ARM_DELAY_MS)
  {
    hide Elapsed, Millis, LastChange;
    var r := After(r0, e);
    assert r.history == r0.history && r.start == r0.start;
    ArmDelayIsTrue(e.at, r.start);
    if Moved(r.history) { ElapsedCountsModulo(e.at, Latest(r.history).at, HEIGHT_LEASE_MS); }
  }

  // ---- Regular ticks

  /** At a time a tick is not overdue, the wrapping lease test gives the true answer. */
  lemma LeaseIsTrue(r: Run, now: nat)
    requires Sound(r.handler) && Reads(r) && Aging(r)
    requires r.now <= now && (r.handler.session.baseline ==> now <= r.polled + SAFE_GAP_MS)
    ensures IsReady(r.handler.session, Millis(now)) <==> r.handler.session.armed && Fresh(r, now)
    ensures !Misread(r, now)
  {
    hide Elapsed, Millis, LastChange, Arming;
    if r.handler.session.distinct { LeaseTestIsTrue(now, Latest(r.history).at); }
  }

  lemma {:induction false} LegalIsOrdered(events: seq<Event>, gap: nat, jitter: nat)
    requires Legal(events, gap, jitter)
    ensures Ordered(events, jitter)
  {
    if events != [] { LegalIsOrdered(events[..|events| - 1], gap, jitter); }
  }

  lemma {:induction false} LegalAges(events: seq<Event>, jitter: nat)
    requires Legal(events, SAFE_GAP_MS, jitter)
    ensures Told(Play(events)) && Aging(Play(events)) && Honest(events)
  {
    LegalIsOrdered(events, SAFE_GAP_MS, jitter);
    RunHolds(events, jitter);
    if events != [] {
      var n := |events| - 1;
      LegalAges(events[..n], jitter);
      EventAges(Play(events[..n]), events[n], jitter);
      LeaseIsTrue(Play(events[..n]), events[n].at);
    }
  }

  /**
   * In a run whose ticks are never more than SAFE_GAP_MS apart nothing is ever misread, through any number
   * of turns of the clock: readiness is the test on unbounded time, and the motor follows the height.
   */
  lemma {:induction false} WrapAgrees(events: seq<Event>, jitter: nat, now: nat)
    requires Legal(events, SAFE_GAP_MS, jitter)
    requires var r := Play(events); r.now <= now <= r.polled + SAFE_GAP_MS
    ensures var r := Play(events);
      && (IsReady(r.handler.session, Millis(now)) <==> r.handler.session.armed && Fresh(r, now))
      && Timed(r, jitter)
  {
    LegalAges(events, jitter);
    LegalIsOrdered(events, SAFE_GAP_MS, jitter);
    RunHolds(events, jitter);
    LeaseIsTrue(Play(events), now);
  }

  // ---- The gap cannot be larger

  /**
   * Two heights arrive at once when the session begins; the ticks at 499 and 1500 are 1001 ms apart and
   * miss the only second in which the session could be armed. Then n more ticks, one a second.
   */
  function Stalled(n: nat): seq<Event> {
    if n == 0 then Opening() + [TickAt(499)] + [TickAt(1500)]
    else Stalled(n - 1) + [TickAt(1500 + 1000 * n)]
  }

  function Opening(): seq<Event> {
    [] + [Event(0, 0, false, Begin(0))]
      + [Event(0, 0, false, Height(Reading("a", 80.0), 0))]
      + [Event(0, 0, false, Height(Reading("b", 81.0), 0))]
  }

  function TickAt(t: nat): Event {
    Event(t, t, false, Tick)
  }

  lemma PlayAppend(events: seq<Event>, e: Event, gap: nat, jitter: nat)
    ensures Play(events + [e]) == After(Play(events), e)
    ensures Legal(events + [e], gap, jitter) <==> Legal(events, gap, jitter) && Next(Play(events), e, gap, jitter)
  {
  }

  /** No tick before the first full turn of the clock plus the arming delay changes that session. */
  lemma TickLeavesWaiting(t: nat)
    requires HEIGHT_LEASE_MS <= t < WRAP + ARM_DELAY_MS
    ensures Next(Waiting(t - 1000), TickAt(t), SAFE_GAP_MS + 1, 0)
    ensures After(Waiting(t - 1000), TickAt(t)) == Waiting(t)
  {
    var now := Millis(t);
    assert now == if t < WRAP then t else t - WRAP;
    hide Millis;
    assert !Elapsed(now, 0, ARM_DELAY_MS) || Elapsed(now, 0, HEIGHT_LEASE_MS);
    hide Elapsed;
  }

  /** The session in which that run waits: a lapsed change that was never armed. */
  function Waiting(now: nat): Run {
    Run(Handler(Session(true, true, false, "a", "b", Some(81.0), 0, 0), Stopped()),
        0, [Seen(0, "a", 80.0), Seen(0, "b", 81.0)], now, now)
  }

  lemma OpeningWaits()
    ensures Legal(Opening(), SAFE_GAP_MS + 1, 0) && Play(Opening()) == Waiting(0)
  {
    var begin := Event(0, 0, false, Begin(0));
    var first := Event(0, 0, false, Height(Reading("a", 80.0), 0));
    var second := Event(0, 0, false, Height(Reading("b", 81.0), 0));
    PlayAppend([], begin, SAFE_GAP_MS + 1, 0);
    PlayAppend([] + [begin], first, SAFE_GAP_MS + 1, 0);
    PlayAppend([] + [begin] + [first], second, SAFE_GAP_MS + 1, 0);
    assert "a" != "b" by { assert "a"[0] != "b"[0]; }
    assert Play([] + [begin]) == Boot();
    assert After(Boot(), first).history == [Seen(0, "a", 80.0)];
  }

  lemma StalledAtFirst()
    ensures Legal(Stalled(0), SAFE_GAP_MS + 1, 0) && Play(Stalled(0)) == Waiting(1500)
  {
    OpeningWaits();
    PlayAppend(Opening(), TickAt(499), SAFE_GAP_MS + 1, 0);
    PlayAppend(Opening() + [TickAt(499)], TickAt(1500), SAFE_GAP_MS + 1, 0);
    assert After(Waiting(0), TickAt(499)) == Waiting(499);
    assert After(Waiting(499), TickAt(1500)) == Waiting(1500);
  }

  lemma {:induction false} StalledWaits(n: nat)
    requires n <= 4_294_966
    ensures Legal(Stalled(n), SAFE_GAP_MS + 1, 0) && Play(Stalled(n)) == Waiting(1500 + 1000 * n)
  {
    hide After, Waiting, Next, Opening;
    if n == 0 {
      StalledAtFirst();
    } else {
      StalledWaits(n - 1);
      var t := 1500 + 1000 * n;
      PlayAppend(Stalled(n - 1), TickAt(t), SAFE_GAP_MS + 1, 0);
      TickLeavesWaiting(t);
    }
  }

  /** One second later the clock has come round to the arming window of the old height. */
  lemma TickArmsWaiting(t: nat)
    requires WRAP + ARM_DELAY_MS <= t < WRAP + HEIGHT_LEASE_MS
    ensures IsReady(After(Waiting(t - 1000), TickAt(t)).handler.session, Millis(t))
  {
    var now := Millis(t);
    assert now == t - WRAP;
    hide Millis;
    assert Elapsed(now, 0, ARM_DELAY_MS) && !Elapsed(now, 0, HEIGHT_LEASE_MS);
    hide Elapsed;
  }

  /**
   * One gap of SAFE_GAP_MS + 1 is enough: one turn of the clock later, with a tick every second, the
   * session is armed by itself and ready although its last height is more than 49 days old.
   */
  lemma SafeGapIsSharp()
    ensures var events, now := Stalled(4_294_967), WRAP + 1204;
      && Legal(events, SAFE_GAP_MS + 1, 0)
      && Play(events).now == now
      && IsReady(Play(events).handler.session, Millis(now))
      && !Fresh(Play(events), now)
  {
    hide Play, Legal, After, Waiting, Next, IsReady, Stalled;
    var n := 4_294_967;
    assert 1500 + 1000 * n == WRAP + 1204;
    StalledWaits(n - 1);
    LastStalledTick(n);
  }

  lemma LastStalledTick(n: nat)
    requires n > 0 && 1500 + 1000 * n == WRAP + 1204
    requires Legal(Stalled(n - 1), SAFE_GAP_MS + 1, 0) && Play(Stalled(n - 1)) == Waiting(WRAP + 204)
    ensures var events, now := Stalled(n), WRAP + 1204;
      && Legal(events, SAFE_GAP_MS + 1, 0)
      && Play(events).now == now
      && IsReady(Play(events).handler.session, Millis(now))
      && !Fresh(Play(events), now)
  {
    hide IsReady;
    var t := WRAP + 1204;
    PlayAppend(Stalled(n - 1), TickAt(t), SAFE_GAP_MS + 1, 0);
    TickArmsWaiting(t);
    var r := Waiting(t - 1000);
    assert Latest(r.history).at == 0 by { LastChangeIsLatest(r.history, 0); }
  }
}
