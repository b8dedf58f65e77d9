// The height monitor: the latest height, where it came from, and what its status means.
module HeightMonitors {
  import opened Policy

  datatype Serial = Connected | Disconnected | Failed

  datatype Provenance = Live | Cached

  datatype HeightStatus = NotRunning | AwaitingFirst | Online | Stale | Faulty | SensorSleeping

  datatype Monitor = Monitor(running: bool, height: Option<real>, observedAt: Option<int>, provenance: Option<Provenance>)

  datatype HeightSnapshot = HeightSnapshot(height: Option<real>, observedAt: Option<int>, status: HeightStatus)

  function Status(m: Monitor, serial: Serial, wall: int, staleMs: nat): HeightStatus {
    if !m.running then NotRunning
    else if serial == Failed then Faulty
    else if m.height == None || m.observedAt == None then AwaitingFirst
    else if m.provenance == Some(Cached) then SensorSleeping
    else if wall - m.observedAt.value > staleMs then Stale
    else if serial == Connected then Online
    else Faulty
  }

  function Snapshot(m: Monitor, serial: Serial, wall: int, staleMs: nat): HeightSnapshot {
    HeightSnapshot(m.height, m.observedAt, Status(m, serial, wall, staleMs))
  }

  /** A height measured by this process and a provenance go together; a cached one keeps its own mark. */
  predicate Consistent(m: Monitor) {
    && (m.height.Some? <==> m.observedAt.Some?)
    && (m.height.Some? <==> m.provenance.Some?)
  }

  /** ONLINE is exactly a live, recent measurement while the serial line is connected. */
  lemma OnlineMeans(m: Monitor, serial: Serial, wall: int, staleMs: nat)
    requires Consistent(m)
    ensures Status(m, serial, wall, staleMs) == Online <==>
      && m.running && serial == Connected && m.provenance == Some(Live)
      && wall - m.observedAt.value <= staleMs
  {
    if m.provenance.Some? {
      match m.provenance.value
      case Live =>
      case Cached =>
    }
  }

  class DeskHeightMonitor {
    var running: bool
    var height: Option<real>
    var observedAt: Option<int>
    var provenance: Option<Provenance>
    const staleMs: nat

    function View(): Monitor
      reads this
    {
      Monitor(running, height, observedAt, provenance)
    }

    constructor (staleMs: nat)
      ensures Consistent(View()) && View() == Monitor(false, None, None, None) && this.staleMs == staleMs
    {
      this.staleMs := staleMs;
      running, height, observedAt, provenance := false, None, None, None;
    }

    /** Starts from the cached height, if there is one and it can be read. */
    method Start(cached: Option<(real, int)>)
      requires !running
      modifies this
      ensures Consistent(View()) && running
      ensures forall serial, wall :: Status(View(), serial, wall, staleMs) != Online
      ensures cached.Some? ==> height == Some(cached.value.0) && observedAt == Some(cached.value.1)
      ensures cached.None? ==> height == None
    {
      height, observedAt, provenance := None, None, None;
      if cached.Some? {
        height := Some(cached.value.0);
        observedAt := Some(cached.value.1);
        provenance := Some(Cached);
      }
      running := true;
    }

    method GetSnapshot(serial: Serial, wall: int) returns (s: HeightSnapshot)
      ensures s == Snapshot(View(), serial, wall, staleMs)
    {
      if !running { return HeightSnapshot(height, observedAt, NotRunning); }
      var status;
      if serial == Failed {
        status := Faulty;
      } else if height == None || observedAt == None {
        status := AwaitingFirst;
      } else if provenance == Some(Cached) {
        status := SensorSleeping;
      } else {
        var age := wall - observedAt.value;
        if age > staleMs {
          status := Stale;
        } else if serial == Connected {
          status := Online;
        } else {
          status := Faulty;
        }
      }
      s := HeightSnapshot(height, observedAt, status);
    }

    /** One line of the serial source: only a decoded line of a connected source is an observation. */
    method Receive(decoded: Option<real>, serial: Serial, wall: int)
      requires running && Consistent(View())
      modifies this
      ensures Consistent(View())
      ensures View() == if decoded.Some? && serial == Connected
                        then Monitor(true, decoded, Some(wall), Some(Live)) else old(View())
    {
      if decoded == None { return; }
      if serial != Connected { return; }
      height := decoded;
      observedAt := Some(wall);
      provenance := Some(Live);
    }
  }
}
