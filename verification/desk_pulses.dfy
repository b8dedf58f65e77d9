// Every pulse on the wire was justified by what the controller knew when it decided on it, and a target
// run sends a bounded number of them.
module DeskPulses {
  import opened Policy
  import opened HeightMonitors
  import opened DeskModel
  import opened DeskFacts
  import opened DeskWorld
  import opened DeskRecord
  import opened DeskWire

  predicate Justified(c: Settings, p: Pulse) {
    var h := p.env.monitor.height;
    && LiveHeight(c, p.env)
    && LiveRelay(c, p.env)
    && p.startedAt == p.env.mono
    && p.generation == p.control.generation
    && (p.way == Up ==> h.value < c.opMax)
    && (p.way == Down ==> h.value > c.opMin)
    && !p.control.awaiting
    && match p.control.mode
       case Manual =>
         && p.holdMs == c.manualHoldMs && p.fineAt.None? && p.control.phase.None?
         && p.control.direction == Some(p.way)
         && p.motion.lastHoldAt.Some? && p.env.mono - p.motion.lastHoldAt.value <= c.watchdogMs
       case Target =>
         && p.control.target.Some? && c.opMin <= p.control.target.value <= c.opMax
         && p.motion.startedAt.Some? && p.env.mono - p.motion.startedAt.value <= c.targetTimeoutMs
         && (p.way == Up ==> p.control.target.value - h.value > c.tolerance)
         && (p.way == Down ==> h.value - p.control.target.value > c.tolerance)
         && (match p.control.phase
             case Some(Continuous) =>
               && p.holdMs == c.continuousHoldMs && p.fineAt.None?
               && !Near(p.control.target.value, h.value, c.fineDistance)
             case Some(Fine) => p.holdMs == c.fineHoldMs && p.fineAt == p.env.monitor.observedAt
             case _ => false)
       case _ => false
  }

  lemma TargetCycleJustifies(c: Settings, d: Desk, e: Env)
    requires ValidSettings(c) && RecordOk(c, d) && d.control.mode == Target && !d.control.awaiting
    requires HeightUsable(c, HeightIn(c, e)) && RelayReady(c, e.relay, e.wall) && Consistent(e.monitor)
    requires e.mono - d.motion.startedAt.value <= c.targetTimeoutMs
    ensures var act := TargetCycle(c, d, e).1; act.Publish? ==> Justified(c, act.pulse)
  {
    TestsAreFacts(c, e);
  }

  lemma CycleJustifies(c: Settings, d: Desk, e: Env)
    requires ValidSettings(c) && RecordOk(c, d) && Consistent(e.monitor)
    ensures var act := Cycle(c, d, e).1; act.Publish? ==> Justified(c, act.pulse)
  {
    hide TargetCycle, WakeCycle, RelayAnswer;
    if d.control.awaiting {
      WakeCycleKeeps(c, d, e);
    } else {
      RelayAnswerKeeps(c, d, e);
      if HeightUsable(c, HeightIn(c, e)) {
        TestsAreFacts(c, e);
        var t := RelayAnswer(c, d, e).0;
        if d.control.mode == Target && RelayReady(c, e.relay, e.wall)
           && e.mono - d.motion.startedAt.value <= c.targetTimeoutMs {
          TargetCycleJustifies(c, t, e);
        }
      }
    }
  }

  /** The boundary check of a target cycle never refuses: an admitted target lies inside the limits. */
  lemma TargetGuardNeverFires(c: Settings, target: real, height: real)
    requires c.opMin <= target <= c.opMax && Abs(target - height) > c.tolerance && ValidSettings(c)
    ensures WayAllowed(c, height, Toward(target - height))
  {
  }

  // ---- All interleavings

  function PulseIn(e: Entry): Option<Pulse> {
    match e
    case Sent(PulseMessage(p), _, _) => Some(p)
    case _ => None
  }

  predicate JustifiedWire(c: Settings, trace: seq<Entry>) {
    forall i :: 0 <= i < |trace| && PulseIn(trace[i]).Some? ==> Justified(c, PulseIn(trace[i]).value)
  }

  predicate PulsesOk(c: Settings, w: World) {
    && (w.runner.Sending? && w.runner.message.PulseMessage? ==> Justified(c, w.runner.message.pulse))
    && JustifiedWire(c, w.trace)
  }

  /** The runner decides on a new pulse only in a cycle. */
  lemma RunnerSends(c: Settings, w: World, move: Label)
    requires !move.RunCycle?
    ensures var t := Step(c, w, move);
      t.runner.Sending? && t.runner.message.PulseMessage? ==> t.runner == w.runner
  {
    hide StartupCycle, TargetEnters, HoldEnters, TargetProceeds, HoldProceeds, StopBegins, StartEnds, PulseDone;
    if move.TakeIntentLock? { StartupDecides(c, w.desk, move.env); }
  }

  lemma StartupDecides(c: Settings, d: Desk, e: Env)
    ensures !StartupCycle(c, d, e).1.Publish?
  {
  }

  lemma StepJustifies(c: Settings, w: World, move: Label)
    requires ValidSettings(c) && WorldOk(c, w) && PulsesOk(c, w)
    ensures PulsesOk(c, Step(c, w, move))
  {
    hide Justified, Step;
    if move == Wire {
      WireJustifies(c, w);
    } else {
      StepGrows(c, w, move);
      if move.RunCycle? { CycleSendsJustified(c, w, move.env); } else { RunnerSends(c, w, move); }
      var t := Step(c, w, move);
      forall i | 0 <= i < |t.trace| && PulseIn(t.trace[i]).Some? ensures Justified(c, PulseIn(t.trace[i]).value) {
        assert i < |w.trace| && t.trace[i] == w.trace[i];
      }
    }
  }

  lemma WireJustifies(c: Settings, w: World)
    requires WorldOk(c, w) && PulsesOk(c, w)
    ensures PulsesOk(c, Step(c, w, Wire))
  {
    assert LockOk(w);
    hide Justified, RecordOk, TasksOk;
  }

  lemma CycleSendsJustified(c: Settings, w: World, env: Env)
    requires ValidSettings(c) && WorldOk(c, w) && PulsesOk(c, w)
    ensures var r := Step(c, w, RunCycle(env)).runner;
      r.Sending? && r.message.PulseMessage? ==> Justified(c, r.message.pulse)
  {
    hide Justified, Cycle, TasksOk;
    if Consistent(env.monitor) { CycleJustifies(c, w.desk, env); }
  }

  /** Every pulse on the wire in every interleaving is justified. */
  lemma {:induction false} EveryPulseIsJustified(c: Settings, generation: nat, first: Env, labels: seq<Label>)
    requires ValidSettings(c)
    ensures PulsesOk(c, Run(c, generation, first, labels))
  {
    if labels != [] {
      var n := |labels| - 1;
      EveryPulseIsJustified(c, generation, first, labels[..n]);
      RecordHolds(c, generation, first, labels[..n]);
      StepJustifies(c, Run(c, generation, first, labels[..n]), labels[n]);
    }
  }
}
