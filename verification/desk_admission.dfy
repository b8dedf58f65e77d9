// What a request must meet before it becomes an intent, and how a moving intent listens to the relay.
module DeskAdmission {
  import opened Policy
  import opened HeightMonitors
  import opened DeskModel
  import opened DeskFacts
  import opened DeskRecord
  import opened DeskPulses

  // ---- Requests

  /**
   * A request refused after its validation leaves the live intent and its motion as they are; only the
   * startup WAKE is off. One that fails validation is refused like that exactly when no intent is live.
   */
  lemma RefusalsKeepTheIntent(c: Settings, d: Desk, target: real, way: Way, e: Env)
    ensures var (t, next) := TargetEnters(c, d, target, e);
      next == Refuse ==> t == d.(pending := t.pending) && t.pending in {None, d.pending}
    ensures TargetEnters(c, d, target, e).1 == Halt <==>
              !(c.opMin <= target <= c.opMax) && d.control.mode != NoMotion
    ensures var (t, next) := TargetProceeds(c, d, target, e); next == Refuse ==> t == d
    ensures var (t, next) := HoldEnters(c, d, way, e);
      next == Refuse ==> t == d.(pending := t.pending) && t.pending in {None, d.pending}
    ensures var (t, next) := HoldProceeds(c, d, way, e); next == Refuse ==> t == d
  {
  }

  /** Motion that starts at once: a live height, a ready relay that reports no motion, room to move. */
  predicate MayMove(c: Settings, d: Desk, way: Way, e: Env) {
    && InService(d)
    && LiveHeight(c, e)
    && LiveRelay(c, e)
    && !Running(e)
    && Room(c, e.monitor.height.value, way)
  }

  /** Waking: a height that is no longer live, but in range, and a relay that reports STOP. */
  predicate MayWake(c: Settings, d: Desk, way: Way, e: Env) {
    && InService(d)
    && !d.control.awaiting
    && OldHeight(c, e)
    && AnsweringRelay(c, e) && Resting(e)
    && Room(c, e.monitor.height.value, way)
  }

  /** What a request installs, when it does: a fresh generation, admitted by one of the two. */
  predicate Admitted(c: Settings, d: Desk, t: Desk, next: Next, e: Env) {
    (next.Go? || next.SendWake? ==>
       && t.control.generation == d.control.generation + 1
       && t.control.direction.Some?
       && (next.Go? ==> !t.control.awaiting && MayMove(c, d, t.control.direction.value, e))
       && (next.SendWake? ==>
             && t.control.awaiting && MayWake(c, d, t.control.direction.value, e)
             && t.control.wakeObservedAt == e.monitor.observedAt
             && next.order == WakeOrder(t.control.generation, t.control.direction.value, e.monitor.height.value)))
  }

  lemma TargetIsAdmitted(c: Settings, d: Desk, target: real, e: Env)
    requires Consistent(e.monitor)
    ensures Admitted(c, d, TargetProceeds(c, d, target, e).0, TargetProceeds(c, d, target, e).1, e)
    ensures TargetProceeds(c, d, target, e).1.Go? ==>
      var k := TargetProceeds(c, d, target, e).0.control;
      k.target == Some(target) && !Near(target, e.monitor.height.value, c.tolerance)
      && (k.direction == Some(Up) <==> target > e.monitor.height.value)
  {
    TestsAreFacts(c, e);
  }

  lemma TargetEntryIsAdmitted(c: Settings, d: Desk, target: real, e: Env)
    requires Consistent(e.monitor)
    ensures Admitted(c, d, TargetEnters(c, d, target, e).0, TargetEnters(c, d, target, e).1, e)
  {
    hide TargetProceeds;
    TargetIsAdmitted(c, d.(pending := None), target, e);
  }

  lemma HoldIsAdmitted(c: Settings, d: Desk, way: Way, e: Env)
    requires Consistent(e.monitor)
    ensures Admitted(c, d, HoldProceeds(c, d, way, e).0, HoldProceeds(c, d, way, e).1, e)
    ensures Admitted(c, d, HoldEnters(c, d, way, e).0, HoldEnters(c, d, way, e).1, e)
  {
    TestsAreFacts(c, e);
  }

  // ---- The relay's answer

  /** One cycle of a moving intent: what it sees, and when the first pulse of the intent went out. */
  datatype Glance = Glance(env: Env, firstPulseAt: Option<int>)

  function ReceivedAt(g: Glance): Option<int> {
    g.env.relay.receivedAt
  }

  /** The cycles so far, from a motion that has just been installed; false once one of them ends it. */
  function Listen(c: Settings, d: Desk, glances: seq<Glance>): (Desk, bool) {
    if glances == [] then (d, true)
    else
      var n := |glances| - 1;
      var (t, fine) := Listen(c, d, glances[..n]);
      if !fine then (t, false)
      else RelayAnswer(c, t.(motion := t.motion.(firstPulseAt := glances[n].firstPulseAt)), glances[n].env)
  }

  /** A report newer than the one known at the start and than all reports seen since. */
  predicate IsNews(baseline: Option<int>, glances: seq<Glance>, i: nat)
    requires i < |glances|
  {
    && ReceivedAt(glances[i]).Some?
    && (baseline.Some? ==> ReceivedAt(glances[i]).value > baseline.value)
    && forall j :: 0 <= j < i && ReceivedAt(glances[j]).Some? ==>
         ReceivedAt(glances[j]).value < ReceivedAt(glances[i]).value
  }

  /** Before cycle n the relay has reported the direction asked for. */
  predicate ConfirmedBefore(baseline: Option<int>, way: Way, glances: seq<Glance>, n: nat)
    requires n <= |glances|
  {
    exists i: nat :: i < n && IsNews(baseline, glances, i) && glances[i].env.relay.state == Some(Reported(way))
  }

  predicate IsLate(c: Settings, g: Glance) {
    g.firstPulseAt.Some? && g.env.mono - g.firstPulseAt.value > c.ackMs
  }

  function Opposite(way: Way): Way {
    match way
    case Up => Down
    case Down => Up
  }

  /**
   * The relay's answer ends the motion: no report in time, a report of the other direction, or one of a
   * stop, when the motion had been reported already or should have been.
   */
  predicate Trouble(c: Settings, baseline: Option<int>, way: Way, glances: seq<Glance>, i: nat)
    requires i < |glances|
  {
    var g := glances[i];
    || (baseline.Some? && ReceivedAt(g).Some? && ReceivedAt(g).value <= baseline.value && IsLate(c, g))
    || (IsNews(baseline, glances, i)
        && (g.env.relay.state == Some(Reported(Opposite(way)))
            || (g.env.relay.state == Some(RelayStop)
                && (ConfirmedBefore(baseline, way, glances, i) || IsLate(c, g)))))
  }

  /** The newest time on record is the newest report seen. */
  predicate Newest(baseline: Option<int>, glances: seq<Glance>, lastSeen: Option<int>) {
    && (baseline.Some? ==> lastSeen.Some? && lastSeen.value >= baseline.value)
    && (forall i :: 0 <= i < |glances| && ReceivedAt(glances[i]).Some? ==>
          lastSeen.Some? && ReceivedAt(glances[i]).value <= lastSeen.value)
    && (lastSeen.Some? ==>
          lastSeen == baseline || exists i :: 0 <= i < |glances| && ReceivedAt(glances[i]) == lastSeen)
  }

  lemma NewsOfPrefix(baseline: Option<int>, way: Way, glances: seq<Glance>, n: nat)
    requires n <= |glances|
    ensures forall i: nat :: i < n ==> (IsNews(baseline, glances[..n], i) <==> IsNews(baseline, glances, i))
    ensures forall i: nat :: i <= n ==>
      (ConfirmedBefore(baseline, way, glances[..n], i) <==> ConfirmedBefore(baseline, way, glances, i))
  {
  }

  lemma TroubleOfPrefix(c: Settings, baseline: Option<int>, way: Way, glances: seq<Glance>, n: nat)
    requires n <= |glances|
    ensures forall i: nat :: i < n ==> (Trouble(c, baseline, way, glances[..n], i) <==> Trouble(c, baseline, way, glances, i))
    ensures ConfirmedBefore(baseline, way, glances[..n], n) <==> ConfirmedBefore(baseline, way, glances, n)
  {
    NewsOfPrefix(baseline, way, glances, n);
    hide IsNews, ConfirmedBefore;
  }

  /** Watching report by report comes to the same as reading the whole list of reports. */
  lemma {:induction false} AnswerIsHistory(c: Settings, d: Desk, relay: RelayReport, way: Way, glances: seq<Glance>)
    requires d.control.direction == Some(way) && d.motion == Tracking(d.motion, relay)
    ensures var (t, fine) := Listen(c, d, glances);
      && (fine <==> forall i: nat :: i < |glances| ==> !Trouble(c, relay.receivedAt, way, glances, i))
      && (fine ==>
            && t.control == d.control
            && t.motion.relayBaseline == relay.receivedAt
            && Newest(relay.receivedAt, glances, t.motion.relayLastSeen)
            && (t.motion.confirmed <==> ConfirmedBefore(relay.receivedAt, way, glances, |glances|)))
  {
    if glances != [] {
      var n := |glances| - 1;
      var before, baseline := glances[..n], relay.receivedAt;
      AnswerIsHistory(c, d, relay, way, before);
      TroubleOfPrefix(c, baseline, way, glances, n);
      hide Trouble, Newest, ConfirmedBefore, RelayAnswer;
      var (t, fine) := Listen(c, d, before);
      if fine { AnswerIsNext(c, t, way, baseline, glances); }
    }
  }

  lemma AnswerIsNext(c: Settings, t: Desk, way: Way, baseline: Option<int>, glances: seq<Glance>)
    requires glances != [] && t.control.direction == Some(way) && t.motion.relayBaseline == baseline
    requires var n := |glances| - 1;
      && Newest(baseline, glances[..n], t.motion.relayLastSeen)
      && (t.motion.confirmed <==> ConfirmedBefore(baseline, way, glances, n))
    ensures var n := |glances| - 1;
      var (u, fine) := RelayAnswer(c, t.(motion := t.motion.(firstPulseAt := glances[n].firstPulseAt)), glances[n].env);
      && (fine <==> !Trouble(c, baseline, way, glances, n))
      && (fine ==>
            && u.control == t.control && u.motion.relayBaseline == baseline
            && Newest(baseline, glances, u.motion.relayLastSeen)
            && (u.motion.confirmed <==> ConfirmedBefore(baseline, way, glances, n + 1)))
  {
    NewsIsNewest(baseline, glances, t.motion.relayLastSeen);
    ConfirmedExtends(baseline, way, glances);
    hide IsNews, Newest, ConfirmedBefore;
  }

  lemma NewsIsNewest(baseline: Option<int>, glances: seq<Glance>, seen: Option<int>)
    requires glances != [] && Newest(baseline, glances[..|glances| - 1], seen)
    ensures var n := |glances| - 1;
      var r := ReceivedAt(glances[n]);
      && (IsNews(baseline, glances, n) <==>
            r.Some? && (baseline.Some? ==> r.value > baseline.value) && (seen.Some? ==> r.value > seen.value))
      && Newest(baseline, glances, if IsNews(baseline, glances, n) then r else seen)
  {
  }

  lemma ConfirmedExtends(baseline: Option<int>, way: Way, glances: seq<Glance>)
    requires glances != []
    ensures var n := |glances| - 1;
      ConfirmedBefore(baseline, way, glances, n + 1) <==>
        ConfirmedBefore(baseline, way, glances, n)
        || (IsNews(baseline, glances, n) && glances[n].env.relay.state == Some(Reported(way)))
  {
  }
}
