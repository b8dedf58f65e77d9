// Where every intent comes from: hand-over from a live one, WAKE before motion, and the startup WAKE.
module DeskIntents {
  import opened Policy
  import opened HeightMonitors
  import opened DeskModel
  import opened DeskFacts
  import opened DeskWorld
  import opened DeskRecord
  import opened DeskWire
  import opened DeskPulses

  /** The generation an intent was installed under; settling once moves a target run on by one. */
  function Base(k: Control): int {
    if k.phase in {Some(Settling), Some(Fine)} then k.generation - 1 else k.generation
  }

  /** k is the present record of the intent installed as i. */
  predicate Founds(i: Control, k: Control) {
    && i.generation == Base(k) && i.mode == k.mode && i.target == k.target
    && (k.awaiting ==> i == k)
  }

  /** The sensor answered: a height newer than the basis of the WAKE, and a relay at STOP and ready. */
  predicate Answers(c: Settings, i: Control, e: Env) {
    && LiveSensor(c, e)
    && i.wakeObservedAt.Some? && e.monitor.observedAt.value > i.wakeObservedAt.value
    && e.relay.state == Some(RelayStop) && e.relay.code == Some(Ready)
  }

  predicate LiveSensor(c: Settings, e: Env) {
    && e.monitor.running && e.serial == Connected && e.monitor.observedAt.Some?
    && e.monitor.provenance == Some(Live)
    && e.wall - e.monitor.observedAt.value <= c.heightStaleMs
  }

  predicate Woken(c: Settings, trace: seq<Entry>, i: Control) {
    exists e :: e in trace && e.Activated? && e.generation == i.generation && Answers(c, i, e.env)
  }

  /** The intent k belongs to is on record, and if it began with a WAKE and moves, it was answered. */
  predicate Founded(c: Settings, trace: seq<Entry>, k: Control) {
    && (exists e :: e in trace && e.Installed? && Founds(e.control, k))
    && (forall e :: e in trace && e.Installed? && e.control.generation == Base(k) ==>
          Founds(e.control, k) && (e.control.awaiting && !k.awaiting ==> Woken(c, trace, e.control)))
  }

  /**
   * The intent g was live when the hand-over began at `since`. Its own STOP was then sent under a later
   * generation, published without an error, and confirmed by a report newer than the one known at `since`.
   */
  predicate HandedOver(trace: seq<Entry>, g: nat, since: nat) {
    exists i: nat, p: nat, j: nat :: i < p < j < |trace| && PublishedFor(trace, g, since, i, p) && ConfirmedAt(trace, since, j)
  }

  predicate ReplacingAt(trace: seq<Entry>, g: nat, since: nat) {
    since < |trace| && trace[since].Replacing? && trace[since].replaced == Some(g)
  }

  predicate StopAt(trace: seq<Entry>, i: nat, g: nat)
    requires i < |trace|
  {
    trace[i].Sent? && trace[i].message == StopMessage && trace[i].generation > g && trace[i].client == TheStopper
  }

  predicate PublishedFor(trace: seq<Entry>, g: nat, since: nat, i: nat, p: nat)
    requires i < p < |trace|
  {
    ReplacingAt(trace, g, since) && since < i && StopAt(trace, i, g) && trace[p] == Published(TheStopper)
  }

  predicate ConfirmedAt(trace: seq<Entry>, since: nat, j: nat)
    requires j < |trace|
  {
    && since < j && trace[since].Replacing? && trace[j].Confirmed?
    && NewStop(trace[since].relay.receivedAt, trace[j].relay)
  }

  /** Whether the startup WAKE can still come: start() has finished and nothing else has been asked for. */
  datatype Chance = NotYet | Open | Spent

  function StartupState(trace: seq<Entry>): Chance {
    if trace == [] then NotYet
    else
      var n := |trace| - 1;
      var s := StartupState(trace[..n]);
      match trace[n]
      case Registered => if s == NotYet then Open else s
      case Asked(_) => if s == Open then Spent else s
      case Installed(_, Startup) => Spent
      case _ => s
  }

  predicate WakeIn(trace: seq<Entry>, g: nat) {
    exists e :: e in trace && e.Sent? && e.message.WakeMessage? && e.message.order.generation == g
  }

  predicate Ordered(trace: seq<Entry>, o: WakeOrder) {
    exists e :: e in trace && e.Installed? && e.control.awaiting && e.control.generation == o.generation
  }

  /** What must already be on the trace when an entry is made. */
  predicate Legit(c: Settings, before: seq<Entry>, e: Entry) {
    match e
    case Installed(k, Direct(replaced)) => replaced.Some? ==> k.mode == Manual && k.awaiting
    case Installed(k, After(replaced, since)) => replaced.Some? ==> HandedOver(before, replaced.value, since)
    case Installed(k, Startup) => k.mode == Wake && StartupState(before) == Open
    case Sent(PulseMessage(p), _, _) => !p.control.awaiting && Founded(c, before, p.control)
    case Sent(WakeMessage(o), _, _) => Ordered(before, o) && !WakeIn(before, o.generation)
    case _ => true
  }

  predicate Lawful(c: Settings, trace: seq<Entry>) {
    trace == [] ||
    var n := |trace| - 1;
    Lawful(c, trace[..n]) && Legit(c, trace[..n], trace[n])
  }

  lemma {:induction false} LawfulAt(c: Settings, trace: seq<Entry>, j: nat)
    requires Lawful(c, trace) && j < |trace|
    ensures Legit(c, trace[..j], trace[j])
  {
    var n := |trace| - 1;
    if j < n {
      LawfulAt(c, trace[..n], j);
      assert trace[..n][..j] == trace[..j];
    }
  }

  lemma LawfulAppend(c: Settings, trace: seq<Entry>, e: Entry)
    requires Lawful(c, trace) && Legit(c, trace, e)
    ensures Lawful(c, trace + [e])
    ensures StartupState(trace + [e]) ==
      match e
      case Registered => if StartupState(trace) == NotYet then Open else StartupState(trace)
      case Asked(_) => if StartupState(trace) == Open then Spent else StartupState(trace)
      case Installed(_, Startup) => Spent
      case _ => StartupState(trace)
  {
  }

  // ---- The invariant

  predicate Unsent(w: World, client: Client) {
    !(w.lock.Held? && w.lock.client == client && w.lock.sent)
  }

  predicate OrderOk(w: World, client: Client, o: WakeOrder) {
    o.generation <= w.desk.control.generation && Ordered(w.trace, o)
    && (Unsent(w, client) ==> !WakeIn(w.trace, o.generation))
  }

  predicate Bounded(w: World) {
    forall e :: e in w.trace ==>
      && (e.Installed? ==> e.control.generation <= w.desk.control.generation)
      && (e.Sent? && e.message.WakeMessage? ==> e.message.order.generation <= w.desk.control.generation)
  }

  predicate SendersOk(c: Settings, w: World) {
    && (w.runner.Sending? ==>
          match w.runner.message
          case PulseMessage(p) => !p.control.awaiting && Founded(c, w.trace, p.control)
          case WakeMessage(o) => w.request == NoRequest && OrderOk(w, TheRunner, o)
          case StopMessage => true)
    && (w.request.Ordering? ==> OrderOk(w, TheRequest, w.request.order))
  }

  predicate StartOk(w: World) {
    && (w.desk.pending.Some? ==> StartupState(w.trace) == Open)
    && (w.stopper.Stopping? && w.stopper.owner == ByStart ==> StartupState(w.trace) == NotYet)
  }

  predicate BeganWith(e: Entry, replaced: Option<nat>, baseline: Option<int>) {
    e.Replacing? && e.replaced == replaced && e.relay.receivedAt == baseline
  }

  predicate HandingOk(w: World) {
    w.request.HandingOver? && w.stopper.Stopping? ==>
      && w.request.since < |w.trace|
      && BeganWith(w.trace[w.request.since], w.request.replaced, w.stopper.baseline)
      && (w.request.replaced.Some? ==>
            && w.request.replaced.value < w.desk.control.generation
            && (!Unsent(w, TheStopper) ==> StopSince(w.trace, w.request.since, w.request.replaced.value))
            && (w.stopper.confirming ==> PublishedSince(w.trace, w.request.since, w.request.replaced.value)))
  }

  predicate Linked(c: Settings, w: World) {
    && Lawful(c, w.trace)
    && Bounded(w)
    && (w.desk.control.mode != NoMotion ==> Founded(c, w.trace, w.desk.control))
    && SendersOk(c, w)
    && StartOk(w)
    && HandingOk(w)
  }

  // ---- Single entries

  /** An entry that installs nothing older leaves what is founded founded. */
  lemma FoundedAppend(c: Settings, trace: seq<Entry>, e: Entry, k: Control)
    requires Founded(c, trace, k) && (e.Installed? ==> e.control.generation > Base(k))
    ensures Founded(c, trace + [e], k)
  {
  }

  predicate StopSince(trace: seq<Entry>, since: nat, g: nat) {
    exists i: nat :: since < i < |trace| && StopAt(trace, i, g)
  }

  predicate PublishedSince(trace: seq<Entry>, since: nat, g: nat) {
    exists i: nat, p: nat :: i < p < |trace| && PublishedFor(trace, g, since, i, p)
  }

  lemma StopAppend(trace: seq<Entry>, e: Entry, since: nat, g: nat)
    ensures StopSince(trace, since, g) ==> StopSince(trace + [e], since, g)
    ensures PublishedSince(trace, since, g) ==> PublishedSince(trace + [e], since, g)
  {
    if StopSince(trace, since, g) {
      var i: nat :| since < i < |trace| && StopAt(trace, i, g);
      assert StopAt(trace + [e], i, g);
    }
    if PublishedSince(trace, since, g) {
      var i: nat, p: nat :| i < p < |trace| && PublishedFor(trace, g, since, i, p);
      assert PublishedFor(trace + [e], g, since, i, p);
    }
  }

  /** The STOP that has been sent is published. */
  lemma PublishAppend(trace: seq<Entry>, since: nat, g: nat)
    requires StopSince(trace, since, g) && ReplacingAt(trace, g, since)
    ensures PublishedSince(trace + [Published(TheStopper)], since, g)
  {
    var i: nat :| since < i < |trace| && StopAt(trace, i, g);
    assert PublishedFor(trace + [Published(TheStopper)], g, since, i, |trace|);
  }

  /** Entries that neither install nor send nor register anything. */
  predicate Inert(e: Entry) {
    e.Activated? || e.Confirmed? || e.HoldAt? || e.Asked? || e.Published? || e.Replacing? || e.Invalid?
  }

  lemma SendersAppend(c: Settings, w: World, e: Entry)
    requires SendersOk(c, w) && PulseOk(w)
    requires e.Installed? ==> e.control.generation > w.desk.control.generation
    requires e.Sent? ==> e.message.PulseMessage? || e.message.StopMessage?
    ensures SendersOk(c, w.(trace := w.trace + [e]))
  {
  }

  lemma HandingAppend(w: World, e: Entry)
    requires HandingOk(w)
    ensures HandingOk(w.(trace := w.trace + [e]))
  {
    if w.request.HandingOver? && w.request.replaced.Some? {
      StopAppend(w.trace, e, w.request.since, w.request.replaced.value);
    }
  }

  lemma InertKeepsLinks(c: Settings, w: World, e: Entry)
    requires Linked(c, w) && PulseOk(w) && Inert(e) && (e.Asked? ==> w.desk.pending.None?)
    ensures Linked(c, w.(trace := w.trace + [e]))
  {
    hide Founded, SendersOk, HandingOk, StopSince;
    LawfulAppend(c, w.trace, e);
    if w.desk.control.mode != NoMotion { FoundedAppend(c, w.trace, e, w.desk.control); }
    SendersAppend(c, w, e);
    HandingAppend(w, e);
  }

  // ---- Changes of the desk

  /** The record is replaced by one without intent, or one whose intent is on record already. */
  lemma DeskKeepsLinks(c: Settings, w: World, d: Desk)
    requires Linked(c, w)
    requires d.control.generation >= w.desk.control.generation
    requires d.control.mode == NoMotion || Founded(c, w.trace, d.control)
    requires d.pending.Some? ==> w.desk.pending.Some?
    ensures Linked(c, w.(desk := d))
  {
  }

  lemma InstallKeepsLinks(c: Settings, w: World, d: Desk, origin: Origin)
    requires Linked(c, w) && PulseOk(w)
    requires d.control.generation == w.desk.control.generation + 1 && Base(d.control) == d.control.generation
    requires d.control.mode != NoMotion && d.pending.None?
    requires Legit(c, w.trace, Installed(d.control, origin))
    ensures Linked(c, Installs(w, d, origin))
    ensures d.control.awaiting ==>
      forall o: WakeOrder :: o.generation == d.control.generation ==>
        Ordered(Installs(w, d, origin).trace, o) && !WakeIn(Installs(w, d, origin).trace, o.generation)
  {
    hide SendersOk, HandingOk, StartupState, Lawful, Founded, HandedOver, Ordered, WakeIn;
    var e := Installed(d.control, origin);
    LawfulAppend(c, w.trace, e);
    SendersAppend(c, w, e);
    HandingAppend(w, e);
    InstallIsNew(c, w, d.control, origin);
    LinksWithSenders(c, w.(trace := w.trace + [e]), d);
  }

  /** What is installed under a new generation is founded on its own entry, and has sent no WAKE. */
  lemma InstallIsNew(c: Settings, w: World, k: Control, origin: Origin)
    requires Bounded(w) && k.generation == w.desk.control.generation + 1 && Base(k) == k.generation
    ensures var trace := w.trace + [Installed(k, origin)];
      && Founded(c, trace, k)
      && (k.awaiting ==>
            forall o: WakeOrder :: o.generation == k.generation ==> Ordered(trace, o) && !WakeIn(trace, o.generation))
  {
    var e := Installed(k, origin);
    assert e in w.trace + [e];
    assert Founds(k, k);
  }

  /** A later generation leaves the senders and the hand-over in order. */
  lemma LinksWithSenders(c: Settings, w: World, d: Desk)
    requires d.control.generation >= w.desk.control.generation
    ensures SendersOk(c, w) ==> SendersOk(c, w.(desk := d))
    ensures HandingOk(w) ==> HandingOk(w.(desk := d))
  {
  }

  // ---- Requests

  /** What a request's section has done. */
  predicate Shaped(d: Desk, t: Desk, next: Next) {
    && (t.pending.Some? ==> d.pending.Some?)
    && match next
       case Go => InstalledBy(d, t) && !t.control.awaiting
       case SendWake(order) => InstalledBy(d, t) && t.control.awaiting && order.generation == t.control.generation
       case HandOver => t.control.mode == NoMotion && t.control.generation > d.control.generation
       case _ => t.control == d.control || (t.control.mode == NoMotion && t.control.generation > d.control.generation)
  }

  predicate InstalledBy(d: Desk, t: Desk) {
    && t.control.generation == d.control.generation + 1
    && Base(t.control) == t.control.generation
    && t.control.mode in {Target, Manual}
    && t.pending.None?
  }

  lemma TargetShape(c: Settings, d: Desk, target: real, e: Env)
    requires RecordOk(c, d)
    ensures var (t, next) := TargetEnters(c, d, target, e);
      && Shaped(d, t, next) && (next.Go? || next.SendWake? ==> d.control.mode == NoMotion)
      && (if c.opMin <= target <= c.opMax then t.pending.None? && next != Halt else t == d && next in {Refuse, Halt})
  {
  }

  lemma HoldShape(c: Settings, d: Desk, way: Way, e: Env)
    requires RecordOk(c, d)
    ensures var (t, next) := HoldEnters(c, d, way, e);
      && Shaped(d, t, next) && next != Halt
      && (next.Go? ==> d.control.mode == NoMotion)
      && (next.SendWake? ==> t.control.mode == Manual)
      && (if Accepting(d) then t.pending.None? else t == d && next == Refuse)
  {
  }

  lemma ProceedShape(c: Settings, d: Desk, e: Env)
    requires RecordOk(c, d) && d.pending.None?
    ensures forall target :: var (t, next) := TargetProceeds(c, d, target, e); Shaped(d, t, next) && next !in {HandOver, Halt}
    ensures forall way :: var (t, next) := HoldProceeds(c, d, way, e); Shaped(d, t, next) && next !in {HandOver, Halt}
  {
  }

  predicate Installing(next: Next) {
    next.Go? || next.SendWake?
  }

  lemma HaltKeepsLinks(c: Settings, w: World, blamed: bool)
    requires Linked(c, w) && w.request == NoRequest && !(w.runner.Sending? && w.runner.message.WakeMessage?)
    ensures Linked(c, w.(request := Halting(blamed)))
  {
    hide Lawful, Founded, StartupState, Ordered, WakeIn;
  }

  lemma OrderKeepsLinks(c: Settings, w: World, o: WakeOrder)
    requires Linked(c, w) && LockOk(w) && w.request == NoRequest
    requires !(w.runner.Sending? && w.runner.message.WakeMessage?)
    requires o.generation <= w.desk.control.generation && Ordered(w.trace, o) && !WakeIn(w.trace, o.generation)
    ensures Linked(c, w.(request := Ordering(o)))
  {
    hide Lawful, Founded, StartupState, Ordered, WakeIn;
  }

  /** The desk has been invalidated; the hand-over is on record. */
  lemma BeginsHandOver(c: Settings, w: World, goal: Goal, replaced: Option<nat>, relay: RelayReport)
    requires Linked(c, w) && LockOk(w) && PulseOk(w) && w.request == NoRequest && w.stopper == NoStop
    requires !(w.runner.Sending? && w.runner.message.WakeMessage?)
    requires replaced.Some? ==> replaced.value < w.desk.control.generation
    ensures Linked(c, w.(request := HandingOver(goal, replaced, |w.trace|),
                         trace := w.trace + [Replacing(replaced, relay)],
                         stopper := Stopping(ByRequest, relay.receivedAt, false)))
  {
    hide Linked, PulseOk;
    InertKeepsLinks(c, w, Replacing(replaced, relay));
    var u := w.(trace := w.trace + [Replacing(replaced, relay)]);
    LockIgnoresTrace(w, Replacing(replaced, relay));
    hide LockOk;
    TakesOver(c, u, goal, replaced, relay);
  }

  lemma LockIgnoresTrace(w: World, e: Entry)
    ensures LockOk(w.(trace := w.trace + [e])) <==> LockOk(w)
  {
  }

  lemma TakesOver(c: Settings, w: World, goal: Goal, replaced: Option<nat>, relay: RelayReport)
    requires Linked(c, w) && LockOk(w) && w.request == NoRequest && w.stopper == NoStop
    requires !(w.runner.Sending? && w.runner.message.WakeMessage?)
    requires replaced.Some? ==> replaced.value < w.desk.control.generation
    requires w.trace != [] && w.trace[|w.trace| - 1] == Replacing(replaced, relay)
    ensures Linked(c, w.(request := HandingOver(goal, replaced, |w.trace| - 1),
                         stopper := Stopping(ByRequest, relay.receivedAt, false)))
  {
    hide Lawful, Founded, StartupState, Ordered, WakeIn, StopSince, PublishedSince;
  }

  predicate MayAct(c: Settings, w: World, d: Desk, next: Next) {
    && Linked(c, w) && PulseOk(w) && LockOk(w) && w.request == NoRequest
    && (next == HandOver ==> w.stopper == NoStop)
    && !(w.runner.Sending? && w.runner.message.WakeMessage?)
    && Shaped(w.desk, d, next)
    && (next == Halt ==> d == w.desk)
  }

  lemma RequestKeepsLinks(c: Settings, w: World, d: Desk, next: Next, goal: Goal, origin: Origin, env: Env)
    requires MayAct(c, w, d, next)
    requires Installing(next) ==>
      Legit(c, if d.motion.lastHoldAt == Some(env.mono) then w.trace + [HoldAt(env.mono)] else w.trace,
            Installed(d.control, origin))
    ensures Linked(c, RequestActs(w, d, next, goal, origin, env))
  {
    hide Linked, RequestActs, Legit;
    if Installing(next) {
      InstallingKeepsLinks(c, w, d, next, goal, origin, env);
    } else {
      OthersKeepLinks(c, w, d, next, goal, origin, env);
    }
  }

  lemma InstallingKeepsLinks(c: Settings, w: World, d: Desk, next: Next, goal: Goal, origin: Origin, env: Env)
    requires MayAct(c, w, d, next) && Installing(next)
    requires Legit(c, if d.motion.lastHoldAt == Some(env.mono) then w.trace + [HoldAt(env.mono)] else w.trace,
                   Installed(d.control, origin))
    ensures Linked(c, RequestActs(w, d, next, goal, origin, env))
  {
    hide Legit, Linked, Ordered, WakeIn, Carries;
    var u := Noticed(w, d, env);
    NoticedKeepsLinks(c, w, d, env);
    InstallKeepsLinks(c, u, d, origin);
    if next.SendWake? { OrderKeepsLinks(c, Installs(u, d, origin), next.order); }
  }

  lemma OthersKeepLinks(c: Settings, w: World, d: Desk, next: Next, goal: Goal, origin: Origin, env: Env)
    requires MayAct(c, w, d, next) && !Installing(next)
    ensures Linked(c, RequestActs(w, d, next, goal, origin, env))
  {
    hide Legit, Linked, Carries;
    var u := Noticed(w, d, env);
    NoticedKeepsLinks(c, w, d, env);
    ShapedKeepsLinks(c, u, d, next);
    u := u.(desk := d);
    match next
    case HandOver => BeginsHandOver(c, u, goal, LiveIntent(w.desk), env.relay);
    case Reached => HaltKeepsLinks(c, u, false);
    case Halt =>
      InvalidIsInert(c, u);
      HaltKeepsLinks(c, u.(trace := u.trace + [Invalid(w.desk.control.generation)]), false);
    case _ =>
  }

  /** A HOLD that takes effect is on the trace. */
  function Noticed(w: World, d: Desk, env: Env): World {
    if d.motion.lastHoldAt == Some(env.mono) then w.(now := env.mono, trace := w.trace + [HoldAt(env.mono)])
    else w.(now := env.mono)
  }

  lemma NoticedKeepsLinks(c: Settings, w: World, d: Desk, env: Env)
    requires Linked(c, w) && PulseOk(w)
    ensures Linked(c, Noticed(w, d, env))
  {
    InertKeepsLinks(c, w, HoldAt(env.mono));
    hide Lawful, Founded, StartupState, Ordered, WakeIn, StopSince, PublishedSince;
  }

  lemma InvalidIsInert(c: Settings, w: World)
    requires Linked(c, w) && PulseOk(w)
    ensures Linked(c, w.(trace := w.trace + [Invalid(w.desk.control.generation)]))
  {
    InertKeepsLinks(c, w, Invalid(w.desk.control.generation));
  }

  lemma ShapedKeepsLinks(c: Settings, w: World, d: Desk, next: Next)
    requires Linked(c, w) && Shaped(w.desk, d, next) && !Installing(next)
    ensures Linked(c, w.(desk := d)) && (PulseOk(w) ==> PulseOk(w.(desk := d)))
    ensures next == HandOver && LiveIntent(w.desk).Some? ==> LiveIntent(w.desk).value < d.control.generation
  {
    DeskKeepsLinks(c, w, d);
  }

  /** A validated request withdraws the startup WAKE. */
  function Asking(w: World): World {
    w.(desk := w.desk.(pending := None), trace := w.trace + [Asked(w.desk.control.generation)])
  }

  lemma AskingKeepsLinks(c: Settings, w: World)
    requires WorldOk(c, w) && Linked(c, w)
    ensures Linked(c, Asking(w)) && WorldOk(c, Asking(w))
  {
    hide Lawful, Founded, StartupState, Ordered, WakeIn;
    var d := w.desk.(pending := None);
    DeskKeepsLinks(c, w, d);
    InertKeepsLinks(c, w.(desk := d), Asked(w.desk.control.generation));
  }

  lemma TargetKeepsLinks(c: Settings, w: World, target: real, env: Env)
    requires WorldOk(c, w) && w.shutdown != Over && Linked(c, w) && IntentLockFree(w)
    ensures Linked(c, AsksTarget(c, w, target, env))
  {
    hide TargetEnters, Linked, Legit;
    TargetShape(c, w.desk, target, env);
    TargetKeeps(c, w.desk, target, env);
    var (d, next) := TargetEnters(c, w.desk, target, env);
    if c.opMin <= target <= c.opMax {
      AskingKeepsLinks(c, w);
      DirectIsLegit(c, Asking(w).trace, d, LiveIntent(w.desk));
      DirectIsLegit(c, Asking(w).trace + [HoldAt(env.mono)], d, LiveIntent(w.desk));
      RequestKeepsLinks(c, Asking(w), d, next, ToTarget(target), Direct(LiveIntent(w.desk)), env);
    } else {
      RequestKeepsLinks(c, w, d, next, ToTarget(target), Direct(LiveIntent(w.desk)), env);
    }
  }

  lemma DirectIsLegit(c: Settings, trace: seq<Entry>, d: Desk, replaced: Option<nat>)
    ensures Legit(c, trace, Installed(d.control, Direct(replaced))) <==>
      (replaced.Some? ==> d.control.mode == Manual && d.control.awaiting)
  {
  }

  lemma AdjustKeepsLinks(c: Settings, w: World, size: real, increase: bool, env: Env)
    requires WorldOk(c, w) && w.shutdown != Over && Linked(c, w) && IntentLockFree(w)
    ensures Linked(c, AdjustsTarget(c, w, size, increase, env))
  {
    hide AsksTarget, Linked, WorldOk;
    if size <= 0.0 {
      InvalidKeepsLinks(c, w, env);
    } else {
      AskingKeepsLinks(c, w);
      var t := Asking(w);
      var amount := if increase then size else -size;
      if t.desk.control.target.Some? { TargetKeepsLinks(c, t, t.desk.control.target.value + amount, env); }
    }
  }

  lemma InvalidKeepsLinks(c: Settings, w: World, env: Env)
    requires WorldOk(c, w) && Linked(c, w) && IntentLockFree(w)
    ensures Linked(c, w.(now := env.mono))
    ensures Linked(c, w.(now := env.mono, request := Halting(false),
                         trace := w.trace + [Invalid(w.desk.control.generation)]))
  {
    hide Lawful, Founded, StartupState, Ordered, WakeIn;
    InertKeepsLinks(c, w, Invalid(w.desk.control.generation));
    HaltKeepsLinks(c, w.(trace := w.trace + [Invalid(w.desk.control.generation)]), false);
  }

  lemma HoldKeepsLinks(c: Settings, w: World, way: Way, env: Env)
    requires WorldOk(c, w) && w.shutdown != Over && Linked(c, w) && IntentLockFree(w)
    ensures Linked(c, AsksHold(c, w, way, env))
  {
    hide HoldEnters, Linked, Legit;
    HoldShape(c, w.desk, way, env);
    HoldKeeps(c, w.desk, way, env);
    var (d, next) := HoldEnters(c, w.desk, way, env);
    if Accepting(w.desk) {
      AskingKeepsLinks(c, w);
      DirectIsLegit(c, Asking(w).trace, d, LiveIntent(w.desk));
      DirectIsLegit(c, Asking(w).trace + [HoldAt(env.mono)], d, LiveIntent(w.desk));
      RequestKeepsLinks(c, Asking(w), d, next, ToHold(way), Direct(LiveIntent(w.desk)), env);
    } else {
      RequestKeepsLinks(c, w, d, next, ToHold(way), Direct(LiveIntent(w.desk)), env);
    }
  }

  // ---- The end of a STOP

  lemma HandOverIsLegit(c: Settings, trace: seq<Entry>, e: Entry, d: Desk, replaced: Option<nat>, since: nat)
    requires replaced.Some? ==> HandedOver(trace, replaced.value, since)
    ensures Legit(c, trace, Installed(d.control, After(replaced, since)))
    ensures Legit(c, trace + [e], Installed(d.control, After(replaced, since)))
  {
    if replaced.Some? {
      var g := replaced.value;
      var i: nat, p: nat, j: nat :|
        i < p < j < |trace| && PublishedFor(trace, g, since, i, p) && ConfirmedAt(trace, since, j);
      assert PublishedFor(trace + [e], g, since, i, p) && ConfirmedAt(trace + [e], since, j);
    }
  }

  /** A STOP that has been confirmed completes the hand-over. */
  lemma ConfirmedHandsOver(w: World, e: Entry)
    requires HandingOk(w) && w.request.HandingOver? && w.stopper.Stopping? && w.stopper.confirming
    requires e.Confirmed? && FreshStop(w.stopper.baseline, e.relay)
    ensures w.request.replaced.Some? ==> HandedOver(w.trace + [e], w.request.replaced.value, w.request.since)
  {
    if w.request.replaced.Some? {
      var g := w.request.replaced.value;
      var i: nat, p: nat :| i < p < |w.trace| && PublishedFor(w.trace, g, w.request.since, i, p);
      assert PublishedFor(w.trace + [e], g, w.request.since, i, p);
      assert ConfirmedAt(w.trace + [e], w.request.since, |w.trace|);
    }
  }

  lemma ProceedKeepsLinks(c: Settings, w: World, env: Env)
    requires Linked(c, w) && RecordOk(c, w.desk) && PulseOk(w) && LockOk(w)
    requires w.request.HandingOver? && w.desk.pending.None? && w.stopper == NoStop
    requires w.request.replaced.Some? ==> HandedOver(w.trace, w.request.replaced.value, w.request.since)
    ensures Linked(c, RequestProceeds(c, w, env))
  {
    hide TargetProceeds, HoldProceeds, Lawful, Founded, Legit, StartupState, Ordered, WakeIn;
    ProceedShape(c, w.desk, env);
    var origin := After(w.request.replaced, w.request.since);
    var u := w.(request := NoRequest);
    assert Linked(c, u);
    var (d, next) := match w.request.goal
      case ToTarget(target) => TargetProceeds(c, w.desk, target, env)
      case ToHold(way) => HoldProceeds(c, w.desk, way, env);
    assert Shaped(w.desk, d, next);
    HandOverIsLegit(c, w.trace, HoldAt(env.mono), d, w.request.replaced, w.request.since);
    RequestKeepsLinks(c, u, d, next, w.request.goal, origin, env);
    assert RequestActs(w, d, next, w.request.goal, origin, env) == RequestActs(u, d, next, w.request.goal, origin, env);
  }

  lemma StopFinishKeepsLinks(c: Settings, w: World, failed: bool, env: Env)
    requires WorldOk(c, w) && w.shutdown != Over && Linked(c, w) && w.stopper.Stopping?
    requires w.lock.Held? ==> w.lock.client != TheStopper
    requires !failed && w.request.HandingOver? && w.request.replaced.Some? ==>
      HandedOver(w.trace, w.request.replaced.value, w.request.since)
    ensures Linked(c, StopFinishes(c, w, failed, env))
  {
    hide RequestProceeds, Linked;
    var t := w.(stopper := NoStop, now := env.mono);
    match w.stopper.owner
    case ByStart => StartFinishKeepsLinks(c, w, failed, env);
    case ByTask(blamed) => StopEndKeepsLinks(c, w, failed || blamed, env);
    case ByRequest =>
      StopEndKeepsLinks(c, w, failed, env);
      if !failed { ProceedKeepsLinks(c, t.(desk := StopEnds(w.desk, false)), env); }
  }

  lemma StartFinishKeepsLinks(c: Settings, w: World, failed: bool, env: Env)
    requires WorldOk(c, w) && w.shutdown != Over && Linked(c, w) && w.stopper.Stopping? && w.stopper.owner == ByStart
    requires w.lock.Held? ==> w.lock.client != TheStopper
    ensures Linked(c, StopFinishes(c, w, failed, env))
  {
    hide Lawful, Founded, Ordered, WakeIn;
    LawfulAppend(c, w.trace, Registered);
    SendersAppend(c, w, Registered);
  }

  lemma StopEndKeepsLinks(c: Settings, w: World, failed: bool, env: Env)
    requires WorldOk(c, w) && w.shutdown != Over && Linked(c, w) && w.stopper.Stopping? && w.stopper.owner != ByStart
    requires w.lock.Held? ==> w.lock.client != TheStopper
    ensures var t := w.(stopper := NoStop, now := env.mono, desk := StopEnds(w.desk, failed));
      Linked(c, t) && (w.stopper.owner == ByRequest || w.request == Halted ==> Linked(c, t.(request := NoRequest)))
  {
  }

  // ---- The runner

  /** What a cycle does to the intent: it ends, or goes on as the same one, awake only if answered. */
  predicate Continues(c: Settings, k: Control, e: Env, next: Control) {
    next.mode != NoMotion ==>
      && Base(next) == Base(k) && next.mode == k.mode && next.target == k.target
      && (next.awaiting ==> next == k)
      && (k.awaiting && !next.awaiting ==> Answers(c, k, e))
  }

  lemma TargetCycleContinues(c: Settings, d: Desk, e: Env)
    requires RecordOk(c, d) && d.control.mode == Target && !d.control.awaiting && HeightUsable(c, HeightIn(c, e))
    ensures var (t, act) := TargetCycle(c, d, e);
      Continues(c, d.control, e, t.control) && t.pending == d.pending && (act.Publish? ==> act.pulse.control == t.control)
  {
  }

  lemma WakeCycleContinues(c: Settings, d: Desk, e: Env)
    requires RecordOk(c, d) && d.control.awaiting && Consistent(e.monitor)
    ensures var t := WakeCycle(c, d, e).0;
      Continues(c, d.control, e, t.control) && t.pending == d.pending && t.control.generation >= d.control.generation
  {
    OnlineMeans(e.monitor, e.serial, e.wall, c.heightStaleMs);
  }

  lemma CycleContinues(c: Settings, d: Desk, e: Env)
    requires RecordOk(c, d) && Consistent(e.monitor)
    ensures var (t, act) := Cycle(c, d, e);
      && Continues(c, d.control, e, t.control)
      && t.pending == d.pending
      && (act.Publish? ==> act.pulse.control == t.control && !t.control.awaiting && t.control.mode != NoMotion)
  {
    hide TargetCycle, WakeCycle, RelayAnswer, Answers;
    if d.control.awaiting {
      WakeCycleContinues(c, d, e);
      WakeCycleKeeps(c, d, e);
    } else {
      RelayAnswerKeeps(c, d, e);
      if d.control.mode == Target && HeightUsable(c, HeightIn(c, e)) {
        TargetCycleContinues(c, RelayAnswer(c, d, e).0, e);
        TargetCycleKeeps(c, RelayAnswer(c, d, e).0, e);
      }
    }
  }

  lemma FoundedContinues(c: Settings, trace: seq<Entry>, k: Control, e: Env, next: Control)
    requires Founded(c, trace, k) && Continues(c, k, e, next) && next.mode != NoMotion
    ensures k.awaiting && !next.awaiting ==> Founded(c, trace + [Activated(k.generation, e)], next)
    ensures !(k.awaiting && !next.awaiting) ==> Founded(c, trace, next)
  {
  }

  lemma CycleKeepsLinks(c: Settings, w: World, env: Env)
    requires WorldOk(c, w) && Linked(c, w) && w.runner == Waiting && Consistent(env.monitor)
    ensures Linked(c, RunnerCycles(c, w, env))
  {
    assert PulseOk(w.(now := env.mono));
    TimeKeepsLinks(c, w, env.mono);
    hide Cycle, Continues, TasksOk, Linked, SendersOk, PulseOk, Founded, Carries, RecordOk, Consistent;
    CycleKeeps(c, w.desk, env);
    CycleContinues(c, w.desk, env);
    var (d, act) := Cycle(c, w.desk, env);
    var u := if w.desk.control.awaiting && !d.control.awaiting && d.control.mode != NoMotion
             then w.(now := env.mono, trace := w.trace + [Activated(w.desk.control.generation, env)])
             else w.(now := env.mono);
    InertKeepsLinks(c, w.(now := env.mono), Activated(w.desk.control.generation, env));
    ContinuedIsFounded(c, w, d, env);
    DeskKeepsLinks(c, u, d);
    TurnIs(w, d, act, env);
    hide RunnerActs;
    RunnerTurns(c, u.(desk := d), RunnerCycles(c, w, env).runner);
  }

  lemma TimeKeepsLinks(c: Settings, w: World, now: int)
    requires Linked(c, w)
    ensures Linked(c, w.(now := now))
  {
    hide Lawful, Founded, StartupState, Ordered, WakeIn, StopSince, PublishedSince;
  }

  /** The intent that goes on is still founded. */
  lemma ContinuedIsFounded(c: Settings, w: World, d: Desk, env: Env)
    requires Linked(c, w) && Continues(c, w.desk.control, env, d.control)
    ensures var k, next := w.desk.control, d.control;
      next.mode != NoMotion ==>
        Founded(c, if k.awaiting && !next.awaiting then w.trace + [Activated(k.generation, env)] else w.trace, next)
  {
    var k, next := w.desk.control, d.control;
    if k.mode == NoMotion { ContinuesFromNothing(c, k, env, next); }
    hide Lawful, Founded, StartupState, Continues;
    if k.mode != NoMotion && next.mode != NoMotion { FoundedContinues(c, w.trace, k, env, next); }
  }

  /** The runner goes on to something else, or to send a pulse of the present record. */
  lemma RunnerTurns(c: Settings, w: World, r: Runner)
    requires Linked(c, w)
    requires r.Sending? ==> !r.message.WakeMessage?
    requires r.Sending? && r.message.PulseMessage? ==>
      r.message.pulse.control == w.desk.control && !w.desk.control.awaiting && w.desk.control.mode != NoMotion
    ensures Linked(c, w.(runner := r))
  {
    hide Lawful, Founded, StartupState, Ordered, WakeIn;
  }

  lemma ContinuesFromNothing(c: Settings, k: Control, e: Env, next: Control)
    requires Continues(c, k, e, next) && k.mode == NoMotion
    ensures next.mode == NoMotion
  {
  }

  lemma StartupShape(c: Settings, d: Desk, e: Env)
    requires RecordOk(c, d)
    ensures var (t, act) := StartupCycle(c, d, e);
      && (t.pending.Some? ==> d.pending.Some?)
      && match act
         case Nudge(order) =>
           && d.pending.Some? && t.pending.None?
           && t.control.generation == d.control.generation + 1 && Base(t.control) == t.control.generation
           && t.control.mode == Wake && t.control.awaiting && order.generation == t.control.generation
         case Publish(_) => false
         case SendStop => false
         case _ =>
           t.control.generation == d.control.generation && (t.control == d.control || t.control.mode == NoMotion)
  {
  }

  lemma StartupKeepsLinks(c: Settings, w: World, env: Env)
    requires WorldOk(c, w) && Linked(c, w) && w.runner == WantsIntentLock && IntentLockFree(w)
    ensures Linked(c, RunnerLocks(c, w, env))
  {
    hide StartupCycle, Lawful, Founded, StartupState, Ordered, WakeIn, StopSince;
    StartupShape(c, w.desk, env);
    var (d, act) := StartupCycle(c, w.desk, env);
    var u := w.(runner := Waiting);
    if act.Nudge? { InstallKeepsLinks(c, u, d, Startup); } else { DeskKeepsLinks(c, u, d); }
  }

  // ---- The relay lock

  lemma SentKeepsSenders(c: Settings, w: World)
    requires WorldOk(c, w) && SendersOk(c, w) && w.lock.Held? && !w.lock.sent
    ensures SendersOk(c, Wires(w))
  {
  }

  lemma SentKeepsHanding(c: Settings, w: World)
    requires WorldOk(c, w) && HandingOk(w) && w.lock.Held? && !w.lock.sent
    ensures HandingOk(Wires(w))
  {
    hide StopSince;
    var e := Sent(w.lock.message, w.desk.control.generation, w.lock.client);
    HandingAppend(w, e);
    if w.request.HandingOver? && w.request.replaced.Some? && w.lock.client == TheStopper {
      if w.request.since < |w.trace| { SentStops(w.trace, e, w.request.since, w.request.replaced.value); }
    }
  }

  /** The STOP of a hand-over is sent under a later generation than the intent it replaces. */
  lemma SentStops(trace: seq<Entry>, e: Entry, since: nat, g: nat)
    requires since < |trace| && e.Sent? && e.message == StopMessage && e.generation > g && e.client == TheStopper
    ensures StopSince(trace + [e], since, g)
  {
    assert StopAt(trace + [e], |trace|, g);
  }

  lemma SentKeepsLinks(c: Settings, w: World)
    requires WorldOk(c, w) && Linked(c, w)
    ensures Linked(c, Wires(w))
  {
    hide SendersOk, HandingOk, Lawful, Founded, StartupState;
    if w.lock.Held? && !w.lock.sent {
      var e := Sent(w.lock.message, w.desk.control.generation, w.lock.client);
      SentIsLegit(c, w);
      LawfulAppend(c, w.trace, e);
      if w.desk.control.mode != NoMotion { FoundedAppend(c, w.trace, e, w.desk.control); }
      SentKeepsSenders(c, w);
      SentKeepsHanding(c, w);
    }
  }

  lemma SentIsLegit(c: Settings, w: World)
    requires WorldOk(c, w) && SendersOk(c, w) && w.lock.Held? && !w.lock.sent
    ensures Legit(c, w.trace, Sent(w.lock.message, w.desk.control.generation, w.lock.client))
    ensures w.lock.message.WakeMessage? ==> w.lock.message.order.generation <= w.desk.control.generation
  {
  }

  lemma ReleaseKeepsLinks(c: Settings, w: World, ok: bool, env: Env)
    requires WorldOk(c, w) && w.shutdown != Over && Linked(c, w)
    ensures Linked(c, Releases(c, w, ok, env))
  {
    hide StopFinishes, RunnerReturns, Lawful, Founded, StartupState, Ordered, WakeIn, StopSince, PublishedSince;
    if w.lock.Held? && (ok ==> w.lock.sent) {
      var u := if ok then w.(trace := w.trace + [Published(w.lock.client)]) else w;
      if ok { InertKeepsLinks(c, w, Published(w.lock.client)); }
      match w.lock.client
      case TheStopper =>
        if !ok {
          StopFinishKeepsLinks(c, w.(lock := Free, now := env.mono), true, env);
        } else if w.request.HandingOver? && w.request.replaced.Some? {
          PublishAppend(w.trace, w.request.since, w.request.replaced.value);
        }
      case TheRunner => RunnerReturnKeepsLinks(c, u, ok, env);
      case _ =>
    }
  }

  lemma RunnerReturnKeepsLinks(c: Settings, w: World, ok: bool, env: Env)
    requires WorldOk(c, w) && Linked(c, w) && w.lock.Held? && w.lock.client == TheRunner
    ensures Linked(c, RunnerReturns(c, w.(lock := Free, now := env.mono), w.lock.message, ok, env))
  {
    hide Lawful, Founded, StartupState, Ordered, WakeIn, StopSince;
    if w.lock.message.PulseMessage? {
      var p := w.lock.message.pulse;
      if p.generation == w.desk.control.generation {
        FoundedContinues(c, w.trace, w.desk.control, env, PulseDone(c, w.desk, p, env.mono).control);
      }
    }
  }

  lemma StopTaskKeepsLinks(c: Settings, w: World, blamed: bool, env: Env)
    requires WorldOk(c, w) && w.shutdown != Over && Linked(c, w)
    ensures Linked(c, StopTask(w, blamed, env))
    ensures forall r: Runner :: !r.Sending? ==> Linked(c, StopTask(w, blamed, env).(runner := r))
  {
  }

  lemma RequestStopKeepsLinks(c: Settings, w: World, env: Env)
    requires WorldOk(c, w) && w.shutdown != Over && Linked(c, w) && w.request.Halting?
    ensures Linked(c, RequestStopTask(w, env))
  {
    hide Lawful, Founded, StartupState, Ordered, WakeIn, StopSince;
  }

  lemma AcquireKeepsLinks(c: Settings, w: World, client: Client)
    requires WorldOk(c, w) && Linked(c, w)
    ensures Linked(c, Acquires(w, client))
  {
    hide Lawful, Founded, StartupState, Ordered, WakeIn, StopSince;
  }

  lemma FailKeepsLinks(c: Settings, w: World, move: Label)
    requires WorldOk(c, w) && w.shutdown != Over && Linked(c, w)
    requires move in {RunnerFails, RequestFails, StopTaskFails, StartFails} || move.StopMotion?
    ensures Linked(c, Step(c, w, move))
  {
    hide Lawful, Founded, StartupState, Ordered, WakeIn, StopSince, PublishedSince, BeganWith, RecordOk, PulseOk, Timed;
  }

  lemma ShutdownKeepsLinks(c: Settings, w: World, move: Label)
    requires WorldOk(c, w) && w.shutdown != Over && Linked(c, w)
    requires move == BeginShutdown || move == EndShutdown
    ensures Linked(c, Step(c, w, move))
  {
  }

  lemma StepKeepsLinks(c: Settings, w: World, move: Label)
    requires WorldOk(c, w) && Linked(c, w)
    ensures Linked(c, Step(c, w, move))
  {
    hide Linked, RunnerCycles, RunnerLocks, StopTask, AsksTarget, AdjustsTarget, AsksHold, StopFinishes, Releases, Wires;
    if w.shutdown == Over { return; }
    match move
    case RunCycle(env) => if w.runner == Waiting && Timed(w, env) { CycleKeepsLinks(c, w, env); }
    case TakeIntentLock(env) =>
      if w.runner == WantsIntentLock && IntentLockFree(w) { StartupKeepsLinks(c, w, env); }
    case Wire => SentKeepsLinks(c, w);
    case SetTarget(target, env) => if IntentLockFree(w) { TargetKeepsLinks(c, w, target, env); }
    case AdjustTarget(amount, increase, env) =>
      if IntentLockFree(w) { AdjustKeepsLinks(c, w, amount, increase, env); }
    case Hold(way, env) => if IntentLockFree(w) { HoldKeepsLinks(c, w, way, env); }
    case Confirm(env) =>
      if w.stopper.Stopping? && w.stopper.confirming && FreshStop(w.stopper.baseline, env.relay) {
        ConfirmKeepsLinks(c, w, env);
      }
    case GiveUp(env) => if w.stopper.Stopping? && w.stopper.confirming { StopFinishKeepsLinks(c, w, true, env); }
    case Release(ok, env) => ReleaseKeepsLinks(c, w, ok, env);
    case RunnerStops(env) => StopTaskKeepsLinks(c, w, w.runner.MustStop? && w.runner.blamed, env);
    case RequestStops(env) => if w.request.Halting? { RequestStopKeepsLinks(c, w, env); }
    case Acquire(client) => AcquireKeepsLinks(c, w, client);
    case BeginShutdown => ShutdownKeepsLinks(c, w, move);
    case EndShutdown => ShutdownKeepsLinks(c, w, move);
    case _ => FailKeepsLinks(c, w, move);
  }

  lemma ConfirmKeepsLinks(c: Settings, w: World, env: Env)
    requires WorldOk(c, w) && w.shutdown != Over && Linked(c, w)
    requires w.stopper.Stopping? && w.stopper.confirming && FreshStop(w.stopper.baseline, env.relay)
    ensures Linked(c, StopFinishes(c, w.(trace := w.trace + [Confirmed(w.stopper.baseline, env.relay)]), false, env))
  {
    hide StopFinishes, Lawful, Founded, StartupState, Ordered, WakeIn;
    var e := Confirmed(w.stopper.baseline, env.relay);
    InertKeepsLinks(c, w, e);
    if w.request.HandingOver? { ConfirmedHandsOver(w, e); }
    StopFinishKeepsLinks(c, w.(trace := w.trace + [e]), false, env);
  }

  lemma {:induction false} LinksHold(c: Settings, generation: nat, first: Env, labels: seq<Label>)
    ensures Linked(c, Run(c, generation, first, labels))
  {
    if labels != [] {
      var n := |labels| - 1;
      LinksHold(c, generation, first, labels[..n]);
      RecordHolds(c, generation, first, labels[..n]);
      StepKeepsLinks(c, Run(c, generation, first, labels[..n]), labels[n]);
    }
  }

  /** Every entry of every trace has the history its kind requires. */
  lemma {:induction false} EveryEntryIsLegit(c: Settings, generation: nat, first: Env, labels: seq<Label>)
    ensures AllLegit(c, Run(c, generation, first, labels).trace)
  {
    hide Run;
    LinksHold(c, generation, first, labels);
    var trace := Run(c, generation, first, labels).trace;
    forall j: nat | j < |trace| ensures Legit(c, trace[..j], trace[j]) { LawfulAt(c, trace, j); }
  }

  predicate AllLegit(c: Settings, trace: seq<Entry>) {
    forall j: nat :: j < |trace| ==> Legit(c, trace[..j], trace[j])
  }

  // ---- What it means

  ghost predicate HandOversConfirmed(trace: seq<Entry>) {
    forall j: nat, g: nat, since: nat ::
      j < |trace| && trace[j].Installed? && trace[j].origin == After(Some(g), since) ==>
        ConfirmedBefore(trace, j, g, since)
  }

  predicate ConfirmedBefore(trace: seq<Entry>, j: nat, g: nat, since: nat)
    requires j < |trace|
  {
    exists a: nat, p: nat, b: nat :: a < p < b < j && PublishedFor(trace, g, since, a, p) && ConfirmedAt(trace, since, b)
      && PulsesLater(trace, a, g)
  }

  predicate PulsesLater(trace: seq<Entry>, a: nat, g: nat) {
    forall x :: a < x < |trace| && PulseIn(trace[x]).Some? ==> PulseIn(trace[x]).value.generation > g
  }

  /**
   * In every interleaving, an intent installed after a hand-over from the live intent of generation g
   * comes after the hand-over's own STOP was sent under a later generation and published without an error,
   * and after a report that confirms it and is newer than the one known when g was invalidated; and from
   * that STOP on every pulse is of a later generation than g.
   */
  lemma {:induction false} HandOverIsConfirmed(c: Settings, generation: nat, first: Env, labels: seq<Label>)
    ensures HandOversConfirmed(Run(c, generation, first, labels).trace)
  {
    hide Run, Legit, ConfirmedBefore, StampsRise;
    EveryEntryIsLegit(c, generation, first, labels);
    StopDominates(c, generation, first, labels);
    var trace := Run(c, generation, first, labels).trace;
    forall j: nat, g: nat, since: nat |
        j < |trace| && trace[j].Installed? && trace[j].origin == After(Some(g), since)
      ensures ConfirmedBefore(trace, j, g, since)
    {
      HandOverAt(c, trace, j, g, since);
    }
  }

  lemma HandOverAt(c: Settings, trace: seq<Entry>, j: nat, g: nat, since: nat)
    requires StampsRise(trace) && j < |trace| && Legit(c, trace[..j], trace[j])
    requires trace[j].Installed? && trace[j].origin == After(Some(g), since)
    ensures ConfirmedBefore(trace, j, g, since)
  {
    var a: nat, p: nat, b: nat :|
      a < p < b < j && PublishedFor(trace[..j], g, since, a, p) && ConfirmedAt(trace[..j], since, b);
    assert PublishedFor(trace, g, since, a, p) && ConfirmedAt(trace, since, b);
    assert Stamp(trace[a]).value > g;
    assert PulsesLater(trace, a, g);
  }

  predicate OnlyWakesReplaceDirectly(trace: seq<Entry>) {
    forall j :: 0 <= j < |trace| && trace[j].Installed? && trace[j].origin.Direct? && trace[j].origin.replaced.Some? ==>
      trace[j].control.mode == Manual && trace[j].control.awaiting
  }

  /** Only a HOLD on a stale height replaces a live intent without a STOP of its own, and only to wake. */
  lemma {:induction false} DirectReplacementOnlyWakes(c: Settings, generation: nat, first: Env, labels: seq<Label>)
    ensures OnlyWakesReplaceDirectly(Run(c, generation, first, labels).trace)
  {
    hide Run, Founded, HandedOver, Ordered, WakeIn, StartupState;
    EveryEntryIsLegit(c, generation, first, labels);
    var trace := Run(c, generation, first, labels).trace;
    assert forall j: nat :: j < |trace| ==> Legit(c, trace[..j], trace[j]);
  }

  predicate IsWake(e: Entry) {
    e.Sent? && e.message.WakeMessage?
  }

  predicate WakesDiffer(trace: seq<Entry>) {
    forall i, j :: 0 <= i < j < |trace| && IsWake(trace[i]) && IsWake(trace[j]) ==>
      trace[i].message.order.generation != trace[j].message.order.generation
  }

  predicate WakesOrdered(trace: seq<Entry>) {
    forall j: nat :: j < |trace| && IsWake(trace[j]) ==> Ordered(trace[..j], trace[j].message.order)
  }

  /** No generation sends WAKE twice, and what sends it has been installed as waiting for the sensor. */
  lemma {:induction false} WakeIsSentOnce(c: Settings, generation: nat, first: Env, labels: seq<Label>)
    ensures WakesDiffer(Run(c, generation, first, labels).trace)
    ensures WakesOrdered(Run(c, generation, first, labels).trace)
  {
    hide Run, Founded, HandedOver, Ordered, StartupState;
    EveryEntryIsLegit(c, generation, first, labels);
    var trace := Run(c, generation, first, labels).trace;
    forall i, j | 0 <= i < j < |trace| && IsWake(trace[i]) && IsWake(trace[j])
      ensures trace[i].message.order.generation != trace[j].message.order.generation
    {
      assert Legit(c, trace[..j], trace[j]);
      assert trace[i] in trace[..j];
    }
    assert forall j: nat :: j < |trace| ==> Legit(c, trace[..j], trace[j]);
  }

  predicate PulsesFounded(c: Settings, trace: seq<Entry>) {
    forall j: nat :: j < |trace| && PulseIn(trace[j]).Some? ==> PulseFounded(c, trace[..j], PulseIn(trace[j]).value.control)
  }

  predicate PulseFounded(c: Settings, before: seq<Entry>, k: Control) {
    exists e :: e in before && e.Installed? && Founds(e.control, k)
      && (e.control.awaiting ==> Woken(c, before, e.control))
  }

  /**
   * Every pulse belongs to an intent installed before it with the same mode and target; if that intent
   * began with a WAKE, a live height newer than its basis and a relay at STOP and ready came first.
   */
  lemma {:induction false} PulseWaitsForSensor(c: Settings, generation: nat, first: Env, labels: seq<Label>)
    ensures PulsesFounded(c, Run(c, generation, first, labels).trace)
  {
    hide Run, PulseFounded, AllLegit;
    EveryEntryIsLegit(c, generation, first, labels);
    var trace := Run(c, generation, first, labels).trace;
    forall j: nat | j < |trace| && PulseIn(trace[j]).Some?
      ensures PulseFounded(c, trace[..j], PulseIn(trace[j]).value.control)
    {
      PulseFoundedAt(c, trace, j);
    }
  }

  lemma PulseFoundedAt(c: Settings, trace: seq<Entry>, j: nat)
    requires AllLegit(c, trace) && j < |trace| && PulseIn(trace[j]).Some?
    ensures PulseFounded(c, trace[..j], PulseIn(trace[j]).value.control)
  {
    hide Woken;
    assert Legit(c, trace[..j], trace[j]);
  }

  lemma {:induction false} SpentStays(trace: seq<Entry>, i: nat, j: nat)
    requires i <= j <= |trace|
    ensures StartupState(trace[..i]) == Spent ==> StartupState(trace[..j]) == Spent
    ensures StartupState(trace[..i]) != NotYet ==> StartupState(trace[..j]) != NotYet
  {
    if i < j {
      SpentStays(trace, i, j - 1);
      assert trace[..j][..j - 1] == trace[..j - 1];
    }
  }

  predicate IsStartupWake(e: Entry) {
    e.Installed? && e.origin == Startup
  }

  predicate StartupWakesRare(trace: seq<Entry>) {
    forall i: nat, j: nat :: i < j < |trace| && IsStartupWake(trace[j]) ==>
      && !IsStartupWake(trace[i])
      && (trace[i].Asked? ==> StartupState(trace[..i]) == NotYet)
  }

  /** At most one startup WAKE, only once start() has finished, and never after a validated request. */
  lemma {:induction false} StartupWakeIsRare(c: Settings, generation: nat, first: Env, labels: seq<Label>)
    ensures StartupWakesRare(Run(c, generation, first, labels).trace)
  {
    hide Run, Legit, StartupState;
    EveryEntryIsLegit(c, generation, first, labels);
    var trace := Run(c, generation, first, labels).trace;
    forall i: nat, j: nat | i < j < |trace| && IsStartupWake(trace[j])
      ensures !IsStartupWake(trace[i]) && (trace[i].Asked? ==> StartupState(trace[..i]) == NotYet)
    {
      StartupWakeAt(c, trace, i, j);
    }
  }

  lemma StartupWakeAt(c: Settings, trace: seq<Entry>, i: nat, j: nat)
    requires i < j < |trace| && IsStartupWake(trace[j]) && Legit(c, trace[..j], trace[j])
    ensures !IsStartupWake(trace[i]) && (trace[i].Asked? ==> StartupState(trace[..i]) == NotYet)
  {
    assert trace[..i + 1][..i] == trace[..i];
    SpentStays(trace, i + 1, j);
  }

  lemma FineStaysFine(c: Settings, p: Pulse, q: Pulse)
    requires Justified(c, p) && Justified(c, q) && p.generation <= q.generation
    requires Base(p.control) == Base(q.control) && p.control.phase == Some(Fine)
    ensures q.control.phase == Some(Fine)
  {
  }

  predicate SameTarget(d: Entry, e: Entry) {
    PulseIn(d).Some? && PulseIn(e).Some? && Base(PulseIn(d).value.control) == Base(PulseIn(e).value.control)
  }

  predicate IsFine(e: Entry) {
    PulseIn(e).Some? && PulseIn(e).value.control.phase == Some(Fine)
  }

  predicate FineFollowsFine(trace: seq<Entry>) {
    forall i, j :: 0 <= i < j < |trace| && SameTarget(trace[i], trace[j]) && IsFine(trace[i]) ==> IsFine(trace[j])
  }

  /** Along the wire a target run never goes back from fine to continuous pulses. */
  lemma {:induction false} ContinuousIsNotReentered(c: Settings, generation: nat, first: Env, labels: seq<Label>)
    requires ValidSettings(c)
    ensures FineFollowsFine(Run(c, generation, first, labels).trace)
  {
    hide Justified, Base, Run;
    StopDominates(c, generation, first, labels);
    EveryPulseIsJustified(c, generation, first, labels);
    var trace := Run(c, generation, first, labels).trace;
    forall i, j | 0 <= i < j < |trace| && SameTarget(trace[i], trace[j]) && IsFine(trace[i]) ensures IsFine(trace[j]) {
      assert Stamp(trace[i]).Some? && Stamp(trace[j]).Some?;
      FineStaysFine(c, PulseIn(trace[i]).value, PulseIn(trace[j]).value);
    }
  }
}
