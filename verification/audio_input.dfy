// The microphone: a callback on another thread, a bounded drop-oldest queue owned by the event loop, and
// a generation number that keeps frames out which were captured before a discard.
module AudioInputs {
  import opened Policy

  /** A frame with the number of the callback that captured it; `above` is its RMS against the threshold. */
  datatype Chunk = Chunk(serial: nat, capturedAt: real, above: bool)

  /** A call that the callback has scheduled on the event loop. */
  datatype Call = Call(generation: nat, chunk: Chunk, wellSized: bool, overflow: bool)

  /**
   * The fields and their history: the callbacks so far, the frames that entered the queue, those that left
   * it and those of them that were read, how many a discard threw away, and the callbacks at that time.
   */
  datatype Intake = Intake(
    queue: seq<Chunk>, accepting: bool, generation: nat, dropped: nat, overflows: nat, errors: nat, calls: seq<Call>,
    captured: nat, accepted: seq<Chunk>, gone: seq<Chunk>, delivered: seq<Chunk>, discarded: nat, discardedAt: nat)

  datatype Op =
    | Capture(capturedAt: real, above: bool, wellSized: bool, overflow: bool)
    | CaptureFails
    | RunCall
    | Read
    | SetAccepting(enabled: bool)
    | Discard

  /** What the other thread and the event loop do by themselves. */
  predicate Happens(op: Op) {
    op.Capture? || op == RunCall || op == CaptureFails
  }

  predicate Happenings(ops: seq<Op>) {
    forall i :: 0 <= i < |ops| ==> Happens(ops[i])
  }

  const NOTHING := Intake([], false, 0, 0, 0, 0, [], 0, [], [], [], 0, 0)

  function Enqueue(capacity: nat, s: Intake, call: Call): Intake {
    if call.generation != s.generation || !s.accepting then s
    else if !call.wellSized then s.(errors := s.errors + 1)
    else
      var t := s.(overflows := s.overflows + if call.overflow then 1 else 0, accepted := s.accepted + [call.chunk]);
      if |s.queue| >= capacity && s.queue != [] then
        t.(queue := s.queue[1..] + [call.chunk], gone := s.gone + [s.queue[0]], dropped := s.dropped + 1)
      else t.(queue := s.queue + [call.chunk])
  }

  function Apply(capacity: nat, s: Intake, op: Op): Intake {
    match op
    case Capture(at, above, wellSized, overflow) =>
      s.(calls := s.calls + [Call(s.generation, Chunk(s.captured, at, above), wellSized, overflow)],
         captured := s.captured + 1)
    case CaptureFails => s.(errors := s.errors + 1)
    case RunCall => if s.calls == [] then s else Enqueue(capacity, s.(calls := s.calls[1..]), s.calls[0])
    case Read =>
      if s.queue == [] then s
      else s.(queue := s.queue[1..], gone := s.gone + [s.queue[0]], delivered := s.delivered + [s.queue[0]])
    case SetAccepting(enabled) => s.(accepting := enabled)
    case Discard =>
      s.(generation := s.generation + 1, queue := [], gone := s.gone + s.queue, discarded := s.discarded + |s.queue|,
         discardedAt := s.captured)
  }

  function Run(capacity: nat, s: Intake, ops: seq<Op>): Intake {
    if ops == [] then s
    else Apply(capacity, Run(capacity, s, ops[..|ops| - 1]), ops[|ops| - 1])
  }

  lemma RunOfNone(capacity: nat, s: Intake)
    ensures Run(capacity, s, []) == s
  {
  }

  lemma RunOfTwo(capacity: nat, s: Intake, a: Op, b: Op)
    ensures Run(capacity, s, [a, b]) == Apply(capacity, Apply(capacity, s, a), b)
  {
    assert [a, b][..1] == [a] && [a][..0] == [];
    assert Run(capacity, s, [a]) == Apply(capacity, Run(capacity, s, [a][..0]), a);
  }

  // ---- What every run keeps

  predicate Subsequence(part: seq<Chunk>, whole: seq<Chunk>)
    decreases |whole|
  {
    || part == []
    || (whole != []
        && ((part[|part| - 1] == whole[|whole| - 1] && Subsequence(part[..|part| - 1], whole[..|whole| - 1]))
            || Subsequence(part, whole[..|whole| - 1])))
  }

  /** Every accepted frame is read, dropped, discarded or still queued; the queue holds the newest of them. */
  predicate Accounted(capacity: nat, s: Intake) {
    && |s.queue| <= capacity
    && s.accepted == s.gone + s.queue
    && |s.gone| == |s.delivered| + s.dropped + s.discarded
    && Subsequence(s.delivered, s.gone)
  }

  /** Frames enter the queue in the order of their callbacks. */
  predicate Chronological(s: Intake) {
    && (forall i, j :: 0 <= i < j < |s.accepted| ==> s.accepted[i].serial < s.accepted[j].serial)
    && (forall i, j :: 0 <= i < j < |s.calls| ==> s.calls[i].chunk.serial < s.calls[j].chunk.serial)
    && (forall i, j :: 0 <= i < |s.accepted| && 0 <= j < |s.calls| ==>
          s.accepted[i].serial < s.calls[j].chunk.serial)
    && (forall i :: 0 <= i < |s.accepted| ==> s.accepted[i].serial < s.captured)
    && (forall i :: 0 <= i < |s.calls| ==> s.calls[i].chunk.serial < s.captured)
  }

  /** The queue, and every call still entitled to it, carry frames captured since the last discard. */
  predicate Fresh(s: Intake) {
    && s.discardedAt <= s.captured
    && (forall i :: 0 <= i < |s.queue| ==> s.queue[i].serial >= s.discardedAt)
    && (forall i :: 0 <= i < |s.calls| ==>
          && s.calls[i].generation <= s.generation
          && (s.calls[i].generation == s.generation ==> s.calls[i].chunk.serial >= s.discardedAt))
  }

  predicate IntakeOk(capacity: nat, s: Intake) {
    Accounted(capacity, s) && Chronological(s) && Fresh(s)
  }

  lemma {:induction false} SkippingKeepsOrder(part: seq<Chunk>, whole: seq<Chunk>, more: seq<Chunk>)
    requires Subsequence(part, whole)
    ensures Subsequence(part, whole + more)
  {
    if more == [] {
      assert whole + more == whole;
    } else {
      var n := |more| - 1;
      SkippingKeepsOrder(part, whole, more[..n]);
      assert (whole + more)[..|whole| + n] == whole + more[..n];
    }
  }

  lemma TakingKeepsOrder(part: seq<Chunk>, whole: seq<Chunk>, next: Chunk)
    requires Subsequence(part, whole)
    ensures Subsequence(part + [next], whole + [next])
  {
  }

  lemma EnqueueAccounts(capacity: nat, s: Intake, call: Call)
    requires capacity > 0 && Accounted(capacity, s)
    ensures Accounted(capacity, Enqueue(capacity, s, call))
  {
  }

  lemma ApplyAccounts(capacity: nat, s: Intake, op: Op)
    requires capacity > 0 && Accounted(capacity, s)
    ensures Accounted(capacity, Apply(capacity, s, op))
  {
    hide Subsequence, Enqueue;
    match op
    case RunCall => if s.calls != [] { EnqueueAccounts(capacity, s.(calls := s.calls[1..]), s.calls[0]); }
    case Read =>
      if s.queue != [] {
        TakingKeepsOrder(s.delivered, s.gone, s.queue[0]);
        assert s.gone + s.queue == (s.gone + [s.queue[0]]) + s.queue[1..];
      }
    case Discard => SkippingKeepsOrder(s.delivered, s.gone, s.queue);
    case _ =>
  }

  lemma EnqueueKeepsTime(capacity: nat, s: Intake, call: Call)
    requires Chronological(s) && call.chunk.serial < s.captured
    requires forall i :: 0 <= i < |s.accepted| ==> s.accepted[i].serial < call.chunk.serial
    requires forall i :: 0 <= i < |s.calls| ==> call.chunk.serial < s.calls[i].chunk.serial
    ensures Chronological(Enqueue(capacity, s, call))
  {
  }

  lemma ApplyKeepsTime(capacity: nat, s: Intake, op: Op)
    requires IntakeOk(capacity, s)
    ensures Chronological(Apply(capacity, s, op))
  {
    hide Accounted, Fresh, Enqueue;
    if op == RunCall && s.calls != [] {
      var t := s.(calls := s.calls[1..]);
      assert Chronological(t);
      EnqueueKeepsTime(capacity, t, s.calls[0]);
    }
  }

  lemma ApplyKeepsFresh(capacity: nat, s: Intake, op: Op)
    requires IntakeOk(capacity, s)
    ensures Fresh(Apply(capacity, s, op))
  {
  }

  lemma ApplyKeepsIntake(capacity: nat, s: Intake, op: Op)
    requires capacity > 0 && IntakeOk(capacity, s)
    ensures IntakeOk(capacity, Apply(capacity, s, op))
  {
    ApplyAccounts(capacity, s, op);
    ApplyKeepsTime(capacity, s, op);
    ApplyKeepsFresh(capacity, s, op);
  }

  lemma {:induction false} RunKeepsIntake(capacity: nat, s: Intake, ops: seq<Op>)
    requires capacity > 0 && IntakeOk(capacity, s)
    ensures IntakeOk(capacity, Run(capacity, s, ops))
  {
    if ops != [] {
      var n := |ops| - 1;
      RunKeepsIntake(capacity, s, ops[..n]);
      ApplyKeepsIntake(capacity, Run(capacity, s, ops[..n]), ops[n]);
    }
  }

  /** In every run of the object: nothing is lost or doubled, and the reader sees frames in capture order. */
  lemma FramesAreConserved(capacity: nat, ops: seq<Op>)
    requires capacity > 0
    ensures var s := Run(capacity, NOTHING, ops);
      && |s.queue| <= capacity
      && |s.accepted| == |s.delivered| + s.dropped + s.discarded + |s.queue|
      && Subsequence(s.delivered, s.accepted)
      && forall i, j :: 0 <= i < j < |s.accepted| ==> s.accepted[i].serial < s.accepted[j].serial
  {
    RunKeepsIntake(capacity, NOTHING, ops);
    var s := Run(capacity, NOTHING, ops);
    SkippingKeepsOrder(s.delivered, s.gone, s.queue);
  }

  /**
   * A frame whose callback ran before a discard is never read after it, however late its scheduled call
   * runs and whatever the gate does in between.
   */
  lemma {:induction false} DiscardIsFinal(capacity: nat, s: Intake, later: seq<Op>)
    requires capacity > 0 && IntakeOk(capacity, s)
    ensures var t := Run(capacity, Apply(capacity, s, Discard), later);
      && s.delivered <= t.delivered
      && t.discardedAt >= s.captured
      && IntakeOk(capacity, t)
      && forall i :: |s.delivered| <= i < |t.delivered| ==> t.delivered[i].serial >= s.captured
  {
    hide Accounted, Chronological, Enqueue;
    var u := Apply(capacity, s, Discard);
    ApplyKeepsIntake(capacity, s, Discard);
    RunKeepsIntake(capacity, u, later);
    if later != [] {
      var n := |later| - 1;
      DiscardIsFinal(capacity, s, later[..n]);
      EnqueueReadsNothing(capacity, Run(capacity, u, later[..n]), later[n]);
    }
  }

  lemma EnqueueReadsNothing(capacity: nat, s: Intake, op: Op)
    ensures var t := Apply(capacity, s, op);
      && (op != Read ==> t.delivered == s.delivered)
      && t.captured >= s.captured
      && (op != Discard ==> t.discardedAt == s.discardedAt)
      && (Happens(op) ==>
            t.accepting == s.accepting && t.generation == s.generation
            && (!s.accepting ==> t.queue == s.queue && t.accepted == s.accepted))
  {
  }

  // ---- What enters the queue, and what it pushes out

  /** The newest frames. */
  function LastOf(n: nat, frames: seq<Chunk>): seq<Chunk> {
    if |frames| <= n then frames else frames[|frames| - n..]
  }

  /** A call counts if it is of the present generation, the gate is open and its frame has the right size. */
  predicate Entitled(generation: nat, accepting: bool, call: Call) {
    call.generation == generation && accepting && call.wellSized
  }

  /**
   * An entitled frame always enters, last, and only the oldest frames beyond the capacity make room, each
   * counted as dropped; any other call changes no queue.
   */
  predicate Entered(capacity: nat, s: Intake, call: Call, t: Intake) {
    if Entitled(s.generation, s.accepting, call) then
      && t.queue == LastOf(capacity, s.queue + [call.chunk]) && t.queue != [] && t.queue[|t.queue| - 1] == call.chunk
      && t.accepted == s.accepted + [call.chunk]
      && t.gone + t.queue == s.gone + s.queue + [call.chunk]
      && t.dropped == s.dropped + (|s.queue| + 1 - |t.queue|)
      && t.overflows == s.overflows + (if call.overflow then 1 else 0)
      && t == s.(queue := t.queue, accepted := t.accepted, gone := t.gone, dropped := t.dropped, overflows := t.overflows)
    else t == s.(errors := s.errors + if call.generation == s.generation && s.accepting then 1 else 0)
  }

  lemma EnqueueEnters(capacity: nat, s: Intake, call: Call)
    requires 0 < capacity && |s.queue| <= capacity
    ensures Entered(capacity, s, call, Enqueue(capacity, s, call))
  {
  }

  /** The calls still waiting, and those run, while neither a read nor the gate nor a discard comes between. */
  function Ran(s: Intake, ops: seq<Op>): (seq<Call>, seq<Call>) {
    if ops == [] then (s.calls, [])
    else
      var n := |ops| - 1;
      var (waiting, ran) := Ran(s, ops[..n]);
      match ops[n]
      case Capture(at, above, wellSized, overflow) =>
        var serial := s.captured + Captures(ops[..n]);
        (waiting + [Call(s.generation, Chunk(serial, at, above), wellSized, overflow)], ran)
      case RunCall => if waiting == [] then (waiting, ran) else (waiting[1..], ran + [waiting[0]])
      case _ => (waiting, ran)
  }

  function Captures(ops: seq<Op>): nat {
    if ops == [] then 0 else Captures(ops[..|ops| - 1]) + if ops[|ops| - 1].Capture? then 1 else 0
  }

  /** The frames of the entitled calls, in order. */
  function FramesOf(generation: nat, accepting: bool, calls: seq<Call>): seq<Chunk> {
    if calls == [] then []
    else
      var n := |calls| - 1;
      FramesOf(generation, accepting, calls[..n])
      + if Entitled(generation, accepting, calls[n]) then [calls[n].chunk] else []
  }

  /** What a stretch of calls that ran makes of the queue. */
  predicate Newest(capacity: nat, s: Intake, frames: seq<Chunk>, t: Intake) {
    && t.queue == LastOf(capacity, s.queue + frames)
    && t.accepted == s.accepted + frames
    && t.dropped == s.dropped + (|s.queue| + |frames| - |t.queue|)
    && t.generation == s.generation && t.accepting == s.accepting
    && t.delivered == s.delivered && t.discarded == s.discarded && t.discardedAt == s.discardedAt
  }

  /**
   * While nobody reads, the queue becomes the newest frames, as many as it can hold, of what it held and
   * every entitled frame since; exactly the oldest others are dropped, and nothing else.
   */
  lemma {:induction false} QueueHoldsTheNewest(capacity: nat, s: Intake, ops: seq<Op>)
    requires 0 < capacity && |s.queue| <= capacity && Happenings(ops)
    ensures var t := Run(capacity, s, ops);
      var (waiting, ran) := Ran(s, ops);
      && t.calls == waiting && t.captured == s.captured + Captures(ops)
      && Newest(capacity, s, FramesOf(s.generation, s.accepting, ran), t)
  {
    if ops != [] {
      var n := |ops| - 1;
      assert Happenings(ops[..n]);
      QueueHoldsTheNewest(capacity, s, ops[..n]);
      var u := Run(capacity, s, ops[..n]);
      var (waiting, ran) := Ran(s, ops[..n]);
      if ops[n] == RunCall && waiting != [] {
        NextIsNewest(capacity, s, FramesOf(s.generation, s.accepting, ran), u, waiting[0]);
        FramesOfMore(s.generation, s.accepting, ran, waiting[0]);
      }
      hide Enqueue, LastOf, FramesOf;
    }
  }

  lemma NextIsNewest(capacity: nat, s: Intake, frames: seq<Chunk>, u: Intake, call: Call)
    requires 0 < capacity && |s.queue| <= capacity && Newest(capacity, s, frames, u) && u.calls != [] && u.calls[0] == call
    ensures var more := frames + if Entitled(s.generation, s.accepting, call) then [call.chunk] else [];
      Newest(capacity, s, more, Enqueue(capacity, u.(calls := u.calls[1..]), call))
  {
    var v := u.(calls := u.calls[1..]);
    assert |u.queue| <= capacity;
    EnqueueEnters(capacity, v, call);
    LastOfExtends(capacity, s.queue + frames, call.chunk);
    hide Enqueue, LastOf;
    if Entitled(s.generation, s.accepting, call) {
      assert s.queue + frames + [call.chunk] == s.queue + (frames + [call.chunk]);
      assert s.accepted + frames + [call.chunk] == s.accepted + (frames + [call.chunk]);
    } else {
      assert frames + [] == frames;
    }
  }

  lemma FramesOfMore(generation: nat, accepting: bool, calls: seq<Call>, call: Call)
    ensures FramesOf(generation, accepting, calls + [call]) ==
      FramesOf(generation, accepting, calls) + if Entitled(generation, accepting, call) then [call.chunk] else []
  {
    assert (calls + [call])[..|calls|] == calls;
  }

  lemma LastOfExtends(n: nat, frames: seq<Chunk>, next: Chunk)
    ensures LastOf(n, LastOf(n, frames) + [next]) == LastOf(n, frames + [next])
  {
  }

  /** How a read ends: with a frame, with a timeout, or with the error of a microphone that has gone silent. */
  datatype ReadResult = Frame(chunk: Chunk) | TimedOut | Inactive

  const STALE_CALLBACK: real := 1.0

  lemma HeadIsFresh(capacity: nat, s: Intake)
    requires IntakeOk(capacity, s)
    ensures s.queue != [] ==> s.discardedAt <= s.queue[0].serial < s.captured
  {
    if s.queue != [] { assert s.accepted[|s.gone|] == s.queue[0]; }
  }

  // ---- The object

  class LocalAudioInput {
    const capacity: nat
    var queue: seq<Chunk>
    var open: bool
    var accepting: bool
    var generation: nat
    var droppedFrames: nat
    var overflowFrames: nat
    var callbackErrors: nat
    var calls: seq<Call>
    var captured: nat
    var lastCallbackAt: Option<real>
    ghost var accepted: seq<Chunk>
    ghost var gone: seq<Chunk>
    ghost var delivered: seq<Chunk>
    ghost var discarded: nat
    ghost var discardedAt: nat

    ghost function View(): Intake
      reads this
    {
      Intake(queue, accepting, generation, droppedFrames, overflowFrames, callbackErrors, calls,
             captured, accepted, gone, delivered, discarded, discardedAt)
    }

    ghost predicate Valid()
      reads this
    {
      capacity > 0 && IntakeOk(capacity, View())
    }

    constructor (capacity: nat)
      requires capacity > 0
      ensures Valid() && View() == NOTHING && !open && lastCallbackAt.None? && this.capacity == capacity
    {
      this.capacity := capacity;
      open, lastCallbackAt := false, None;
      queue, calls, accepting := [], [], false;
      generation, droppedFrames, overflowFrames, callbackErrors, captured := 0, 0, 0, 0, 0;
      accepted, gone, delivered, discarded, discardedAt := [], [], [], 0, 0;
    }

    method Callback(capturedAt: real, above: bool, wellSized: bool, overflow: bool)
      modifies this`calls, this`captured, this`lastCallbackAt
      ensures lastCallbackAt == Some(capturedAt)
      ensures View() == Apply(capacity, old(View()), Capture(capturedAt, above, wellSized, overflow))
    {
      lastCallbackAt := Some(capturedAt);
      calls := calls + [Call(generation, Chunk(captured, capturedAt, above), wellSized, overflow)];
      captured := captured + 1;
    }

    /** _enqueue_from_loop, run with the arguments of a scheduled call. */
    method EnqueueFromLoop(call: Call)
      requires capacity > 0
      modifies this`queue, this`droppedFrames, this`overflowFrames, this`callbackErrors, this`accepted, this`gone
      ensures View() == Enqueue(capacity, old(View()), call)
      ensures |old(queue)| <= capacity ==> Entered(capacity, old(View()), call, View())
    {
      if |queue| <= capacity { EnqueueEnters(capacity, View(), call); }
      if call.generation != generation || !accepting { return; }
      if !call.wellSized {
        callbackErrors := callbackErrors + 1;
        return;
      }
      if call.overflow { overflowFrames := overflowFrames + 1; }
      if |queue| >= capacity {
        gone := gone + [queue[0]];
        queue := queue[1..];
        droppedFrames := droppedFrames + 1;
      }
      queue := queue + [call.chunk];
      accepted := accepted + [call.chunk];
    }

    /** The time while a task awaits. */
    method Elapse(happenings: seq<Op>)
      requires Valid()
      requires Happenings(happenings)
      modifies this`calls, this`captured, this`queue, this`droppedFrames, this`overflowFrames, this`callbackErrors,
               this`accepted, this`gone, this`lastCallbackAt
      ensures Valid() && View() == Run(capacity, old(View()), happenings)
      ensures captured >= old(captured)
      ensures !accepting ==> queue == old(queue) && accepted == old(accepted)
      ensures happenings == [] ==> queue == old(queue)
    {
      hide IntakeOk, Apply, Enqueue;
      RunOfNone(capacity, View());
      for i := 0 to |happenings|
        invariant View() == Run(capacity, old(View()), happenings[..i])
        invariant captured >= old(captured)
        invariant !accepting ==> queue == old(queue) && accepted == old(accepted)
      {
        EnqueueReadsNothing(capacity, View(), happenings[i]);
        assert happenings[..i + 1][..i] == happenings[..i];
        Happen(happenings[i]);
      }
      assert happenings[..|happenings|] == happenings;
      RunKeepsIntake(capacity, old(View()), happenings);
    }

    method Happen(op: Op)
      requires capacity > 0 && Happens(op)
      modifies this`calls, this`captured, this`queue, this`droppedFrames, this`overflowFrames, this`callbackErrors,
               this`accepted, this`gone, this`lastCallbackAt
      ensures View() == Apply(capacity, old(View()), op)
    {
      match op
      case Capture(at, above, wellSized, overflow) => Callback(at, above, wellSized, overflow);
      case CaptureFails => callbackErrors := callbackErrors + 1;
      case RunCall =>
        if calls != [] {
          var call := calls[0];
          calls := calls[1..];
          EnqueueFromLoop(call);
        }
    }

    /**
     * The end of a read: the oldest queued frame, or else a timeout. The timeout is an error when the stream
     * has become inactive or its callback has been silent too long.
     */
    method ReadQueue(active: bool, now: real) returns (r: ReadResult)
      requires Valid()
      modifies this`queue, this`gone, this`delivered
      ensures Valid() && View() == Apply(capacity, old(View()), Read)
      ensures r.Frame? ==> discardedAt <= r.chunk.serial < captured
      ensures old(queue) == (if r.Frame? then [r.chunk] else []) + queue
      ensures r ==
        if old(queue) != [] then Frame(old(queue[0]))
        else if open && (!active || (lastCallbackAt.Some? && now - lastCallbackAt.value >= STALE_CALLBACK)) then Inactive
        else TimedOut
    {
      ApplyKeepsIntake(capacity, View(), Read);
      HeadIsFresh(capacity, View());
      hide IntakeOk;
      if queue != [] {
        r := Frame(queue[0]);
        queue := queue[1..];
        gone := gone + [r.chunk];
        delivered := delivered + [r.chunk];
        return;
      }
      if open && !active { return Inactive; }
      if open && lastCallbackAt.Some? && now - lastCallbackAt.value >= STALE_CALLBACK { return Inactive; }
      r := TimedOut;
    }

    method SetGate(enabled: bool)
      requires Valid()
      modifies this`accepting
      ensures Valid() && accepting == enabled && View() == Apply(capacity, old(View()), SetAccepting(enabled))
    {
      hide IntakeOk;
      ApplyKeepsIntake(capacity, View(), SetAccepting(enabled));
      accepting := enabled;
    }

    method DiscardPending()
      requires Valid()
      modifies this`generation, this`queue, this`gone, this`discarded, this`discardedAt
      ensures Valid() && View() == Apply(capacity, old(View()), Discard)
      ensures queue == [] && generation == old(generation) + 1 && discarded == old(discarded) + |old(queue)|
    {
      hide IntakeOk;
      ApplyKeepsIntake(capacity, View(), Discard);
      generation := generation + 1;
      discardedAt := captured;
      while |queue| > 0
        invariant discarded + |queue| == old(discarded) + old(|queue|)
        invariant gone + queue == old(gone) + old(queue)
        modifies this`queue, this`gone, this`discarded
      {
        gone := gone + [queue[0]];
        queue := queue[1..];
        discarded := discarded + 1;
      }
      assert queue == [] && gone + queue == gone;
    }

    method Start(opens: bool, now: real) returns (ok: bool)
      requires Valid()
      modifies this
      ensures !old(open) && opens ==>
        lastCallbackAt == Some(now) && accepting && queue == [] && generation == old(generation) + 1
      ensures Valid() && ok == (old(open) || opens) && open == ok
      ensures View() == if old(open) || !opens then old(View())
                        else Run(capacity, old(View()), [Discard, SetAccepting(true)])
    {
      hide IntakeOk;
      if open { return true; }
      if !opens { return false; }
      open, lastCallbackAt := true, Some(now);
      DiscardPending();
      SetGate(true);
      RunOfTwo(capacity, old(View()), Discard, SetAccepting(true));
      ok := true;
    }

    method Stop()
      requires Valid()
      modifies this
      ensures !accepting && queue == [] && generation == old(generation) + 1
      ensures Valid() && !open && View() == Run(capacity, old(View()), [SetAccepting(false), Discard])
    {
      hide IntakeOk;
      SetGate(false);
      DiscardPending();
      open, lastCallbackAt := false, None;
      RunOfTwo(capacity, old(View()), SetAccepting(false), Discard);
    }
  }
}
