// The relay driver: two GPIO outputs, a one-shot hardware timer and the interrupt that clears both
// outputs. The interrupt may run between any two instructions of the main program.
module Relays {
  import opened Policy

  datatype Direction = Stop | Up | Down

  datatype StartResult = Started | Extended | Switched

  /** The driver between two calls: the outputs follow `direction`. */
  datatype Relay = Relay(direction: Direction, timer: Option<nat>, pending: bool)

  /** What the timer interrupt has made of the driver by time t. */
  function Fire(r: Relay, t: nat): Relay {
    if r.timer.Some? && t >= r.timer.value then Relay(Stop, None, true) else r
  }

  function Stopped(): Relay {
    Relay(Stop, None, false)
  }

  /** `cut` is when start() disables the timer, `armed` when it starts it again. */
  function StartAt(r: Relay, requested: Direction, holdMs: nat, cut: nat, armed: nat): Relay {
    var before := Fire(r, cut);
    Relay(requested, Some(armed + holdMs), if before.direction == requested then before.pending else false)
  }

  function ResultAt(r: Relay, requested: Direction, cut: nat): StartResult {
    var previous := Fire(r, cut).direction;
    if previous == requested then Extended else if previous == Stop then Started else Switched
  }

  /** Outputs that are on are guarded by a timer. */
  predicate Guarded(r: Relay) {
    r.direction != Stop ==> r.timer.Some?
  }

  /** The two outputs after a write, and when it happened. */
  datatype Edge = Edge(at: nat, up: bool, down: bool)

  predicate Idle(e: Edge) {
    !e.up && !e.down
  }

  /** An edge that turns one output on never follows an edge that had the other one on. */
  predicate Separate(e: Edge, f: Edge) {
    && e.at <= f.at
    && !(f.up && f.down)
    && !(e.up && f.down)
    && !(e.down && f.up)
  }

  predicate BreaksBeforeMaking(edges: seq<Edge>) {
    var n := |edges|;
    n > 0
    && if n == 1 then Idle(edges[0])
       else Separate(edges[n - 2], edges[n - 1]) && BreaksBeforeMaking(edges[..n - 1])
  }

  lemma AppendEdge(edges: seq<Edge>, e: Edge)
    requires BreaksBeforeMaking(edges) && Separate(edges[|edges| - 1], e)
    ensures BreaksBeforeMaking(edges + [e])
  {
  }

  /**
   * In every recorded history the outputs are never both on, and between two opposite
   * energisations, however far apart, both have been off.
   */
  lemma {:induction false} OffBetweenOpposites(edges: seq<Edge>, i: nat, j: nat)
    requires BreaksBeforeMaking(edges) && i <= j < |edges|
    ensures !(edges[j].up && edges[j].down)
    ensures (edges[i].up && edges[j].down) || (edges[i].down && edges[j].up) ==>
      exists k :: i < k < j && Idle(edges[k])
  {
    var n := |edges|;
    if n > 1 {
      var front := edges[..n - 1];
      if j < n - 1 {
        OffBetweenOpposites(front, i, j);
        assert forall k :: 0 <= k < n - 1 ==> front[k] == edges[k];
      } else if i < j {
        OffBetweenOpposites(front, i, n - 2);
        assert forall k :: 0 <= k < n - 1 ==> front[k] == edges[k];
        assert Separate(edges[n - 2], edges[n - 1]);
        if !Idle(edges[n - 2]) && ((edges[i].up && edges[j].down) || (edges[i].down && edges[j].up)) {
          var k :| i < k < n - 2 && Idle(front[k]);
          assert Idle(edges[k]);
        }
      }
    }
  }

  /** Since when both outputs have been off, at the end of a history that ends with both off. */
  function OffSince(edges: seq<Edge>): nat
    requires edges != [] && Idle(edges[|edges| - 1])
  {
    var n := |edges| - 1;
    if n == 0 || !Idle(edges[n - 1]) then edges[n].at else OffSince(edges[..n])
  }

  /** How long both outputs had been off when the last edge was written. */
  function OffFor(edges: seq<Edge>): int
    requires |edges| > 1 && Idle(edges[|edges| - 2])
  {
    edges[|edges| - 1].at - OffSince(edges[..|edges| - 1])
  }

  lemma {:induction false} OffSinceAppend(edges: seq<Edge>, e: Edge)
    requires edges != [] && Idle(e)
    ensures OffSince(edges + [e]) == if Idle(edges[|edges| - 1]) then OffSince(edges) else e.at
  {
    assert (edges + [e])[..|edges|] == edges;
  }

  lemma {:induction false} OffForIs(edges: seq<Edge>)
    requires |edges| > 1 && Idle(edges[|edges| - 2])
    ensures OffFor(edges) == edges[|edges| - 1].at - OffSince(edges[..|edges| - 1])
  {
  }

  class RelayController {
    var upPin: bool
    var downPin: bool
    var direction: Direction
    var timeoutPending: bool
    var timer: Option<nat>
    var clock: nat
    ghost var edges: seq<Edge>
    // The longest the processor takes from one step of a method to the next.
    const jitter: nat

    ghost predicate Valid()
      reads this
    {
      && upPin == (direction == Up)
      && downPin == (direction == Down)
      && (direction != Stop ==> timer.Some?)
      && Traced()
    }

    /** The recorded edges are sound and end in the present outputs. */
    ghost predicate Traced()
      reads this
    {
      && BreaksBeforeMaking(edges)
      && !(upPin && downPin)
      && (timer.Some? ==> clock <= timer.value)
      && edges[|edges| - 1].at <= clock
      && edges[|edges| - 1].up == upPin
      && edges[|edges| - 1].down == downPin
    }

    /** Since when the outputs are off if the motor is not on, or will be off if nothing else happens. */
    ghost function RestSince(): nat
      requires Valid()
      reads this
    {
      if direction == Stop then OffSince(edges) else timer.value
    }

    function View(): Relay
      reads this
    {
      Relay(direction, timer, timeoutPending)
    }

    constructor (now: nat, jitter: nat)
      ensures Valid() && View() == Stopped() && clock == now && this.jitter == jitter
    {
      this.jitter := jitter;
      upPin, downPin, direction, timeoutPending := false, false, Stop, false;
      timer := None;
      clock := now;
      edges := [Edge(now, false, false)];
    }

    /** Time passes; the interrupt runs at the moment the timer is due. */
    method Elapse(least: nat, most: nat)
      requires Traced() && least <= most
      modifies this
      ensures Traced() && (old(Valid()) ==> Valid())
      ensures old(clock) + least <= clock <= old(clock) + most
      ensures View() == Fire(old(View()), clock)
      ensures old(edges) <= edges
      ensures if old(timer).None? || clock < old(timer).value
              then upPin == old(upPin) && downPin == old(downPin) && edges == old(edges)
              else edges == old(edges) + [Edge(old(timer).value, false, false)]
    {
      var d: nat :| least <= d <= most;
      clock := clock + d;
      if timer.Some? && clock >= timer.value {
        OnTimer(timer.value);
      }
    }

    method OnTimer(at: nat)
      requires BreaksBeforeMaking(edges) && edges[|edges| - 1].at <= at <= clock
      modifies this
      ensures clock == old(clock) && View() == Relay(Stop, None, true) && Valid()
      ensures edges == old(edges) + [Edge(at, false, false)]
    {
      upPin, downPin := false, false;
      direction := Stop;
      timer := None;
      timeoutPending := true;
      AppendEdge(edges, Edge(at, false, false));
      edges := edges + [Edge(at, false, false)];
    }

    method ArmTimer(holdMs: nat)
      modifies `timer
      ensures timer == Some(clock + holdMs)
    {
      timer := Some(clock + holdMs);
    }

    method DisarmTimer()
      modifies `timer
      ensures timer == None
    {
      timer := None;
    }

    method ForceOffMain()
      requires Traced()
      modifies this
      ensures Traced() && clock == old(clock) && timer == old(timer) && timeoutPending == old(timeoutPending)
      ensures direction == Stop && !upPin && !downPin
      ensures edges == old(edges) + [Edge(clock, false, false)]
    {
      upPin, downPin := false, false;
      direction := Stop;
      AppendEdge(edges, Edge(clock, false, false));
      edges := edges + [Edge(clock, false, false)];
    }

    /** One of the outputs goes on, or neither when `on` is Stop. */
    method WriteRelay(on: Direction)
      requires Traced() && !upPin && !downPin
      modifies this
      ensures Traced() && clock == old(clock) && timer == old(timer)
      ensures direction == on && !timeoutPending
      ensures upPin == (on == Up) && downPin == (on == Down)
      ensures edges == old(edges) + [Edge(clock, on == Up, on == Down)]
    {
      if on == Up { upPin := true; }
      if on == Down { downPin := true; }
      direction := on;
      timeoutPending := false;
      AppendEdge(edges, Edge(clock, upPin, downPin));
      edges := edges + [Edge(clock, upPin, downPin)];
    }

    /** Both outputs off, the break if the motor was turning the other way, then `requested` on. */
    method Remake(previous: Direction, requested: Direction)
      requires Traced() && timer.None?
      modifies this
      ensures Traced() && timer.None?
      ensures old(clock) <= clock <= old(clock) + BREAK_BEFORE_MAKE_MS + jitter
      ensures direction == requested && !timeoutPending
      ensures upPin == (requested == Up) && downPin == (requested == Down)
      ensures |edges| == |old(edges)| + 2 && old(edges) <= edges
      ensures Idle(edges[|edges| - 2]) && OffSince(edges[..|edges| - 1]) ==
        if Idle(old(edges[|edges| - 1])) then OffSince(old(edges)) else edges[|edges| - 2].at
      ensures edges[|edges| - 1] == Edge(clock, requested == Up, requested == Down)
      ensures previous == Stop ==> clock <= old(clock) + jitter
      ensures previous != Stop && requested != Stop && previous != requested ==>
        edges[|edges| - 1].at >= edges[|edges| - 2].at + BREAK_BEFORE_MAKE_MS
    {
      ForceOffMain();
      OffSinceAppend(old(edges), Edge(clock, false, false));
      ghost var broken := edges;
      if previous != Stop && requested != Stop && previous != requested {
        Elapse(BREAK_BEFORE_MAKE_MS, BREAK_BEFORE_MAKE_MS);
      }
      Elapse(0, jitter);
      WriteRelay(requested);
      assert edges[..|edges| - 1] == broken;
    }

    /** The first two steps of start(): after the timer is disabled only this program writes the outputs. */
    method Cut() returns (ghost cut: nat)
      requires Valid()
      modifies this
      ensures Traced() && timer.None? && old(clock) <= cut <= clock <= old(clock) + 2 * jitter
      ensures direction == Fire(old(View()), cut).direction && timeoutPending == Fire(old(View()), cut).pending
      ensures upPin == (direction == Up) && downPin == (direction == Down)
      ensures old(edges) <= edges && (direction != Stop ==> edges == old(edges))
      ensures direction == Stop ==> Idle(edges[|edges| - 1]) && OffSince(edges) == old(RestSince())
    {
      Elapse(0, jitter);
      cut := clock;
      if old(timer).Some? { OffSinceAppend(old(edges), Edge(old(timer).value, false, false)); }
      DisarmTimer();
      Elapse(0, jitter);
    }

    method Start(requested: Direction, holdMs: nat) returns (result: StartResult, ghost cut: nat, ghost armed: nat)
      requires Valid()
      modifies this
      ensures Valid()
      ensures old(clock) <= cut <= armed == clock <= old(clock) + BREAK_BEFORE_MAKE_MS + 4 * jitter
      ensures View() == StartAt(old(View()), requested, holdMs, cut, armed)
      ensures result == ResultAt(old(View()), requested, cut)
      ensures result != Switched ==> armed <= old(clock) + 4 * jitter
      ensures old(edges) <= edges
      // The same direction again writes no output.
      ensures result == Extended && requested != Stop ==>
        edges == old(edges) && upPin == old(upPin) && downPin == old(downPin)
      // A direction that goes on does so after the whole break if and only if the motor was found running
      // the other way, or had been off that long by itself.
      ensures result != Extended && requested != Stop ==>
        && |edges| > |old(edges)| + 1
        && edges[|edges| - 1].up == (requested == Up) && edges[|edges| - 1].down == (requested == Down)
        && old(clock) <= edges[|edges| - 1].at <= armed
        && Idle(edges[|edges| - 2])
        && (OffFor(edges) >= BREAK_BEFORE_MAKE_MS <==>
              result == Switched || edges[|edges| - 1].at >= old(RestSince()) + BREAK_BEFORE_MAKE_MS)
      ensures result == Started && requested != Stop ==>
        && edges[|edges| - 1].at <= old(clock) + 3 * jitter
        && OffFor(edges) == edges[|edges| - 1].at - old(RestSince())
    {
      hide BreaksBeforeMaking, OffSince;
      cut := Cut();
      var previous := direction;
      ghost var off := edges;
      if previous == requested {
        ArmTimer(holdMs);
        armed := clock;
        return Extended, cut, armed;
      }
      Remake(previous, requested);
      OffForIs(edges);
      Elapse(0, jitter);
      ArmTimer(holdMs);
      armed := clock;
      result := if previous == Stop then Started else Switched;
    }

    method StopNow() returns (wasMoving: bool)
      requires Valid()
      modifies this
      ensures Valid() && View() == Stopped()
      ensures old(clock) <= clock <= old(clock) + jitter
      ensures wasMoving ==> old(direction) != Stop
      ensures old(direction) != Stop && clock < old(timer).value ==> wasMoving
      ensures old(edges) <= edges && edges[|edges| - 1] == Edge(clock, false, false)
    {
      Elapse(0, jitter);
      DisarmTimer();
      wasMoving := direction != Stop;
      ForceOffMain();
      timeoutPending := false;
    }

    method TakeTimeoutEvent() returns (was: bool)
      requires Valid()
      modifies `timeoutPending
      ensures Valid() && was == old(timeoutPending)
      ensures View() == old(View()).(pending := false)
    {
      was := timeoutPending;
      timeoutPending := false;
    }
  }

  /**
   * The break is skipped when the motor has just been stopped by its timer: a start the other way at the
   * moment the timer is due, on a processor that takes no time itself, writes its edge in that millisecond.
   */
  method SkipsTheBreak(holdMs: nat) returns (r: RelayController)
    ensures fresh(r) && r.Valid()
    ensures r.clock == holdMs && |r.edges| > 2
    ensures exists i :: 0 <= i < |r.edges| - 2 && r.edges[i] == Edge(0, true, false)
    ensures r.edges[|r.edges| - 1] == Edge(holdMs, false, true)
    ensures Idle(r.edges[|r.edges| - 2]) && OffFor(r.edges) == 0
  {
    hide BreaksBeforeMaking, OffSince, OffFor;
    r := new RelayController(0, 0);
    var result, cut, armed := r.Start(Up, holdMs);
    ghost var on := |r.edges| - 1;
    assert r.edges[on] == Edge(0, true, false);
    r.Elapse(holdMs, holdMs);
    OffSinceAppend(r.edges[..on + 1], Edge(holdMs, false, false));
    assert r.edges == r.edges[..on + 1] + [Edge(holdMs, false, false)];
    result, cut, armed := r.Start(Down, holdMs);
  }
}
