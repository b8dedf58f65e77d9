// What the tests of the controller say about heights, reports and the record, in plain terms.
module DeskFacts {
  import opened Policy
  import opened HeightMonitors
  import opened DeskModel

  /** The monitor shows a height measured by this process, recently and over a connected line. */
  predicate LiveReading(c: Settings, e: Env) {
    && e.monitor.running
    && e.serial == Connected
    && e.monitor.provenance == Some(Live)
    && e.monitor.height.Some? && e.monitor.observedAt.Some?
    && e.wall - e.monitor.observedAt.value <= c.heightStaleMs
  }

  predicate LiveHeight(c: Settings, e: Env) {
    LiveReading(c, e) && c.measureMin <= e.monitor.height.value <= c.measureMax
  }

  /** The height in range is a cached one, or too old; the serial line has not failed. */
  predicate OldHeight(c: Settings, e: Env) {
    && e.monitor.running
    && e.serial != Failed
    && e.monitor.height.Some? && e.monitor.observedAt.Some?
    && (e.monitor.provenance == Some(Cached) || e.wall - e.monitor.observedAt.value > c.heightStaleMs)
    && c.measureMin <= e.monitor.height.value <= c.measureMax
  }

  /** The line has failed, or is down although the height is recent. */
  predicate BrokenHeight(c: Settings, e: Env) {
    && e.monitor.running
    && (e.serial == Failed
        || (e.serial == Disconnected && e.monitor.provenance == Some(Live) && e.monitor.observedAt.Some?
            && e.wall - e.monitor.observedAt.value <= c.heightStaleMs))
  }

  /** A recent report of the supported firmware, neither offline nor rejecting. */
  predicate AnsweringRelay(c: Settings, e: Env) {
    && !e.relay.faulty && e.relay.supported
    && e.relay.event.Some? && e.relay.event != Some(Offline) && e.relay.event != Some(RejectedEvent)
    && e.relay.receivedAt.Some? && 0 <= e.wall - e.relay.receivedAt.value <= c.relayStaleMs
  }

  /** Such a report that is not waiting for heights either. */
  predicate LiveRelay(c: Settings, e: Env) {
    && AnsweringRelay(c, e)
    && e.relay.code != Some(HeightWaiting) && e.relay.code != Some(HeightNotReady)
    && e.relay.code != Some(HeightStale)
  }

  predicate Resting(e: Env) {
    e.relay.state == Some(RelayStop)
  }

  predicate Running(e: Env) {
    e.relay.state == Some(RelayUp) || e.relay.state == Some(RelayDown)
  }

  /** There is room to move this way. */
  predicate Room(c: Settings, height: real, way: Way) {
    (way == Up ==> height < c.opMax) && (way == Down ==> height > c.opMin)
  }

  /** The target is no further away than this. */
  predicate Near(target: real, height: real, distance: real) {
    -distance <= target - height <= distance
  }

  /** The controller takes requests. */
  predicate InService(d: Desk) {
    d.running && !d.closing && !d.stopping
  }

  /** A report of STOP, newer than the one known before, that is neither offline nor rejected. */
  predicate NewStop(baseline: Option<int>, r: RelayReport) {
    && r.state == Some(RelayStop)
    && r.receivedAt.Some? && (baseline.Some? ==> baseline.value < r.receivedAt.value)
    && r.event != Some(Offline) && r.event != Some(RejectedEvent)
  }

  /** Each test of the controller holds exactly when the fact does. */
  lemma TestsAreFacts(c: Settings, e: Env)
    requires Consistent(e.monitor)
    ensures var h := HeightIn(c, e);
      && h.height == e.monitor.height && h.observedAt == e.monitor.observedAt
      && (h.status == Online <==> LiveReading(c, e))
      && (HeightUsable(c, h) <==> LiveHeight(c, e))
      && (WakeBasis(c, h) <==> OldHeight(c, e))
      && (h.status == Faulty <==> BrokenHeight(c, e))
  {
    match (e.monitor.provenance, e.serial)
    case (None, _) =>
    case (Some(Live), Connected) =>
    case (Some(Live), Disconnected) =>
    case (Some(Live), Failed) =>
    case (Some(Cached), _) =>
  }

  lemma RelayTestsAreFacts(c: Settings, d: Desk, e: Env)
    ensures RelayAvailable(c, e.relay, e.wall) <==> AnsweringRelay(c, e)
    ensures RelayReady(c, e.relay, e.wall) <==> LiveRelay(c, e)
    ensures RelayMoves(e.relay) <==> Running(e)
    ensures Accepting(d) <==> InService(d)
    ensures forall baseline: Option<int> :: FreshStop(baseline, e.relay) <==> NewStop(baseline, e.relay)
  {
  }

  lemma DistancesAreFacts(c: Settings, target: real, height: real, distance: real)
    requires distance >= 0.0
    ensures Abs(target - height) <= distance <==> Near(target, height, distance)
    ensures Toward(target - height) == if target > height then Up else Down
    ensures forall way :: WayAllowed(c, height, way) <==> Room(c, height, way)
  {
  }

  /** There is always room to move towards a target that may be asked for. */
  lemma RoomTowardTarget(c: Settings, target: real, height: real)
    requires ValidSettings(c) && c.opMin <= target <= c.opMax && !Near(target, height, c.tolerance)
    ensures Room(c, height, if target > height then Up else Down)
  {
  }
}
