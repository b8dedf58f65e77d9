// The wake-word detector: a rolling window, an inference cadence that becomes dense after a hit, and a
// streak that fires once. The model is an oracle from windows to scores.
module Wakewords {
  type Pcm = seq<bv8>

  const FRAME_BYTES: nat := 3840
  const WINDOW: nat := 25

  datatype Score = Low | High | Failed

  type Model = seq<Pcm> -> Score

  /** Hits needed in a row, and the frames between two inferences while there is none. */
  datatype Cadence = Cadence(hits: nat, interval: nat)

  predicate ValidCadence(k: Cadence) {
    1 <= k.hits <= 5 && 1 <= k.interval <= 25
  }

  datatype Detector = Detector(frames: seq<Pcm>, since: int, streak: nat, disarmed: bool)

  /** What a frame brought about: an inference with its score, or none. */
  datatype Tick = Quiet | Scored(score: Score)

  function Rearmed(k: Cadence): Detector {
    Detector([], k.interval - 1, 0, false)
  }

  function Pushed(frames: seq<Pcm>, pcm: Pcm): seq<Pcm> {
    var longer := frames + [pcm];
    if |longer| > WINDOW then longer[|longer| - WINDOW..] else longer
  }

  function Hear(k: Cadence, model: Model, d: Detector, pcm: Pcm): (Detector, Tick) {
    if d.disarmed then (d, Quiet)
    else
      var t := d.(frames := Pushed(d.frames, pcm));
      if |t.frames| < WINDOW then (t, Quiet)
      else if d.since + 1 < (if d.streak > 0 then 1 else k.interval) then (t.(since := d.since + 1), Quiet)
      else
        var u := t.(since := 0);
        match model(t.frames)
        case Failed => (u, Scored(Failed))
        case Low => (u.(streak := 0), Scored(Low))
        case High => (u.(streak := d.streak + 1, disarmed := d.streak + 1 >= k.hits), Scored(High))
  }

  /** The detector after the frames since its last reset, and the tick of each of them. */
  function Listen(k: Cadence, model: Model, heard: seq<Pcm>): (Detector, seq<Tick>) {
    if heard == [] then (Rearmed(k), [])
    else
      var (d, ticks) := Listen(k, model, heard[..|heard| - 1]);
      var (t, tick) := Hear(k, model, d, heard[|heard| - 1]);
      (t, ticks + [tick])
  }

  // ---- The same, read off the frames

  predicate HitsEndAt(k: Cadence, ticks: seq<Tick>, i: int) {
    k.hits - 1 <= i < |ticks| && forall j :: i - k.hits < j <= i ==> ticks[j] == Scored(High)
  }

  /** The detector has fired before frame i. */
  predicate FiredBefore(k: Cadence, ticks: seq<Tick>, i: int) {
    exists j :: 0 <= j < i && HitsEndAt(k, ticks, j)
  }

  /** Frame i gets an inference: the first full window, the frame after a hit, or an interval after a miss. */
  predicate Due(k: Cadence, ticks: seq<Tick>, i: int)
    requires 0 <= i <= |ticks|
  {
    || i == WINDOW - 1
    || (i > 0 && ticks[i - 1] == Scored(High))
    || (0 < k.interval <= i && ticks[i - k.interval] == Scored(Low))
  }

  predicate TickAsDeclared(k: Cadence, model: Model, heard: seq<Pcm>, ticks: seq<Tick>, i: int)
    requires 0 <= i < |heard| == |ticks|
  {
    ticks[i] == if i >= WINDOW - 1 && !FiredBefore(k, ticks, i) && Due(k, ticks, i)
                then Scored(model(heard[i - (WINDOW - 1)..i + 1])) else Quiet
  }

  predicate Failure(ticks: seq<Tick>) {
    Scored(Failed) in ticks
  }

  /** How many of the last frames were hits. */
  function HitsAtEnd(ticks: seq<Tick>): nat {
    if ticks == [] || ticks[|ticks| - 1] != Scored(High) then 0 else 1 + HitsAtEnd(ticks[..|ticks| - 1])
  }

  function LastWindow(heard: seq<Pcm>): seq<Pcm> {
    if |heard| <= WINDOW then heard else heard[|heard| - WINDOW..]
  }

  lemma HitsAreHits(ticks: seq<Tick>)
    ensures HitsAtEnd(ticks) <= |ticks|
    ensures forall j :: |ticks| - HitsAtEnd(ticks) <= j < |ticks| ==> ticks[j] == Scored(High)
    ensures HitsAtEnd(ticks) < |ticks| ==> ticks[|ticks| - 1 - HitsAtEnd(ticks)] != Scored(High)
  {
  }

  /** After a miss the next inference is a whole interval away. */
  predicate MissesAreSpaced(k: Cadence, ticks: seq<Tick>) {
    forall i, j :: 0 <= i < j < |ticks| && j < i + k.interval && ticks[i] == Scored(Low) ==> ticks[j] == Quiet
  }

  /** What the four fields hold after the frames `heard`. */
  predicate Tracks(k: Cadence, heard: seq<Pcm>, d: Detector, ticks: seq<Tick>) {
    var n := |heard|;
    && |ticks| == n
    && (d.disarmed <==> FiredBefore(k, ticks, n))
    && MissesAreSpaced(k, ticks)
    && (!d.disarmed ==>
          && d.frames == LastWindow(heard)
          && d.streak == HitsAtEnd(ticks) < k.hits
          && (if n < WINDOW then d.since == k.interval - 1 && (forall i :: 0 <= i < n ==> ticks[i] == Quiet)
              else
                && 0 <= d.since < k.interval && d.since <= n - WINDOW
                && (d.streak > 0 ==> d.since == 0)
                && (forall j :: n - d.since <= j < n ==> ticks[j] == Quiet)
                && ticks[n - 1 - d.since] == Scored(if d.streak > 0 then High else Low)))
  }

  predicate AllDeclared(k: Cadence, model: Model, heard: seq<Pcm>, ticks: seq<Tick>) {
    |ticks| == |heard| && forall i :: 0 <= i < |heard| ==> TickAsDeclared(k, model, heard, ticks, i)
  }

  /** The inference test on the counters is the test on the frames. */
  lemma CountersKnowWhatIsDue(k: Cadence, heard: seq<Pcm>, d: Detector, ticks: seq<Tick>)
    requires ValidCadence(k) && Tracks(k, heard, d, ticks) && !d.disarmed && |heard| >= WINDOW - 1
    ensures d.since + 1 >= (if d.streak > 0 then 1 else k.interval) <==> Due(k, ticks, |heard|)
  {
  }

  lemma AppendKeepsTheRest(k: Cadence, ticks: seq<Tick>, tick: Tick)
    requires k.hits >= 1
    ensures var longer := ticks + [tick];
      && (forall i :: 0 <= i <= |ticks| ==> (FiredBefore(k, longer, i) <==> FiredBefore(k, ticks, i)))
      && (FiredBefore(k, longer, |longer|) <==> FiredBefore(k, ticks, |ticks|) || HitsAtEnd(longer) >= k.hits)
      && HitsAtEnd(longer) == if tick == Scored(High) then HitsAtEnd(ticks) + 1 else 0
  {
    var longer := ticks + [tick];
    assert longer[..|ticks|] == ticks;
    HitsAreHits(longer);
    assert forall j :: 0 <= j < |ticks| ==> (HitsEndAt(k, ticks, j) <==> HitsEndAt(k, longer, j));
    assert HitsAtEnd(longer) >= k.hits <==> HitsEndAt(k, longer, |ticks|);
  }

  lemma HearTracks(k: Cadence, model: Model, heard: seq<Pcm>, d: Detector, ticks: seq<Tick>, pcm: Pcm)
    requires ValidCadence(k) && Tracks(k, heard, d, ticks) && Hear(k, model, d, pcm).1 != Scored(Failed)
    ensures Tracks(k, heard + [pcm], Hear(k, model, d, pcm).0, ticks + [Hear(k, model, d, pcm).1])
  {
    hide FiredBefore, HitsEndAt, HitsAtEnd, Pushed, LastWindow, MissesAreSpaced;
    var tick := Hear(k, model, d, pcm).1;
    HitsAreHits(ticks);
    assert HitsAtEnd(ticks) > 0 ==> ticks[|ticks| - 1] == Scored(High);
    AppendKeepsTheRest(k, ticks, tick);
    PushedIsWindow(heard, pcm);
    HearSpacesMisses(k, model, heard, d, ticks, pcm);
  }

  lemma PushedIsWindow(heard: seq<Pcm>, pcm: Pcm)
    ensures Pushed(LastWindow(heard), pcm) == LastWindow(heard + [pcm])
    ensures |LastWindow(heard + [pcm])| == if |heard| + 1 < WINDOW then |heard| + 1 else WINDOW
    ensures |heard| + 1 >= WINDOW ==>
              LastWindow(heard + [pcm]) == (heard + [pcm])[|heard| + 1 - WINDOW..|heard| + 1]
  {
  }

  lemma HearSpacesMisses(k: Cadence, model: Model, heard: seq<Pcm>, d: Detector, ticks: seq<Tick>, pcm: Pcm)
    requires ValidCadence(k) && Tracks(k, heard, d, ticks)
    ensures MissesAreSpaced(k, ticks + [Hear(k, model, d, pcm).1])
  {
  }

  lemma HearIsDeclared(k: Cadence, model: Model, heard: seq<Pcm>, d: Detector, ticks: seq<Tick>, pcm: Pcm)
    requires ValidCadence(k) && Tracks(k, heard, d, ticks)
    ensures TickAsDeclared(k, model, heard + [pcm], ticks + [Hear(k, model, d, pcm).1], |heard|)
  {
    hide HitsEndAt, HitsAtEnd, MissesAreSpaced, Pushed, LastWindow, Due;
    var n := |heard|;
    var tick := Hear(k, model, d, pcm).1;
    AppendKeepsTheRest(k, ticks, tick);
    if !d.disarmed && n >= WINDOW - 1 {
      CountersKnowWhatIsDue(k, heard, d, ticks);
    }
    PushedIsWindow(heard, pcm);
    DueIgnoresTheRest(k, ticks, tick, n);
  }

  lemma DueIgnoresTheRest(k: Cadence, ticks: seq<Tick>, tick: Tick, i: nat)
    requires i <= |ticks|
    ensures Due(k, ticks + [tick], i) <==> Due(k, ticks, i)
  {
  }

  lemma EarlierStaysDeclared(k: Cadence, model: Model, heard: seq<Pcm>, ticks: seq<Tick>, pcm: Pcm, tick: Tick, i: nat)
    requires k.hits >= 1 && i < |heard| == |ticks| && TickAsDeclared(k, model, heard, ticks, i)
    ensures TickAsDeclared(k, model, heard + [pcm], ticks + [tick], i)
  {
    hide FiredBefore, Due;
    AppendKeepsTheRest(k, ticks, tick);
    DueIgnoresTheRest(k, ticks, tick, i);
    if i >= WINDOW - 1 { assert (heard + [pcm])[i - (WINDOW - 1)..i + 1] == heard[i - (WINDOW - 1)..i + 1]; }
  }

  lemma {:induction false} ListenTracks(k: Cadence, model: Model, heard: seq<Pcm>)
    requires ValidCadence(k) && !Failure(Listen(k, model, heard).1)
    ensures var (d, ticks) := Listen(k, model, heard);
      Tracks(k, heard, d, ticks) && AllDeclared(k, model, heard, ticks)
  {
    hide Hear, Tracks, AllDeclared;
    if heard == [] {
      ResetTracks(k, model);
    } else {
      var n := |heard| - 1;
      var (d, ticks) := Listen(k, model, heard[..n]);
      var (t, tick) := Hear(k, model, d, heard[n]);
      assert (ticks + [tick])[|ticks|] == tick;
      assert forall x :: x in ticks ==> x in ticks + [tick];
      ListenTracks(k, model, heard[..n]);
      HearTracks(k, model, heard[..n], d, ticks, heard[n]);
      HearIsDeclared(k, model, heard[..n], d, ticks, heard[n]);
      assert heard[..n] + [heard[n]] == heard;
      DeclaredSoFar(k, model, heard, ticks, tick);
    }
  }

  lemma ResetTracks(k: Cadence, model: Model)
    ensures ValidCadence(k) ==> Tracks(k, [], Rearmed(k), []) && AllDeclared(k, model, [], [])
  {
  }

  lemma DeclaredSoFar(k: Cadence, model: Model, heard: seq<Pcm>, ticks: seq<Tick>, tick: Tick)
    requires k.hits >= 1 && heard != [] && AllDeclared(k, model, heard[..|heard| - 1], ticks)
    requires TickAsDeclared(k, model, heard, ticks + [tick], |heard| - 1)
    ensures AllDeclared(k, model, heard, ticks + [tick])
  {
    hide TickAsDeclared;
    var n := |heard| - 1;
    assert heard[..n] + [heard[n]] == heard;
    forall i: nat | i < n ensures TickAsDeclared(k, model, heard, ticks + [tick], i) {
      EarlierStaysDeclared(k, model, heard[..n], ticks, heard[n], tick, i);
    }
  }

  // ---- What that means

  /** detect() answers true for the last of these frames. */
  predicate Fires(k: Cadence, model: Model, heard: seq<Pcm>) {
    heard != [] && Listen(k, model, heard).0.disarmed && !Listen(k, model, heard[..|heard| - 1]).0.disarmed
  }

  lemma HitRunEnds(k: Cadence, ticks: seq<Tick>)
    requires k.hits >= 1
    ensures HitsAtEnd(ticks) >= k.hits <==> HitsEndAt(k, ticks, |ticks| - 1)
  {
    HitsAreHits(ticks);
  }

  /** It does so exactly when this frame is the last of enough hits on adjacent frames, for the first time. */
  lemma {:induction false} FiresOnTheFirstHitRun(k: Cadence, model: Model, heard: seq<Pcm>)
    requires ValidCadence(k) && !Failure(Listen(k, model, heard).1)
    ensures var ticks := Listen(k, model, heard).1;
      Fires(k, model, heard) <==> HitsEndAt(k, ticks, |heard| - 1) && !FiredBefore(k, ticks, |heard| - 1)
  {
    if heard != [] {
      var n := |heard| - 1;
      var (d, ticks) := Listen(k, model, heard[..n]);
      var tick := Hear(k, model, d, heard[n]).1;
      var longer := ticks + [tick];
      assert longer[|ticks|] == tick;
      assert forall x :: x in ticks ==> x in longer;
      hide Hear, FiredBefore, HitsEndAt, HitsAtEnd, MissesAreSpaced, LastWindow, AllDeclared;
      ListenTracks(k, model, heard);
      ListenTracks(k, model, heard[..n]);
      AppendKeepsTheRest(k, ticks, tick);
      HitRunEnds(k, longer);
    }
  }

  /** Between two resets it fires at most once. */
  lemma {:induction false} FiresOnce(k: Cadence, model: Model, heard: seq<Pcm>, n: nat)
    requires n < |heard| && Fires(k, model, heard[..n])
    ensures !Fires(k, model, heard)
    ensures Listen(k, model, heard).0.disarmed
  {
    var before := heard[..|heard| - 1];
    if n < |before| {
      assert before[..n] == heard[..n];
      FiresOnce(k, model, before, n);
    } else {
      assert before == heard[..n];
    }
  }

  function Count(ticks: seq<Tick>, score: Score): nat {
    if ticks == [] then 0
    else Count(ticks[..|ticks| - 1], score) + if ticks[|ticks| - 1] == Scored(score) then 1 else 0
  }

  /** `n` frames after the first full window, the last of `low` misses and `high` hits `since` frames ago. */
  predicate InCadence(low: int, high: int, since: int, hot: bool, interval: int, n: int) {
    if hot then low * interval + high - 1 == n else (low - 1) * interval + high + since == n
  }

  predicate Cadenced(k: Cadence, d: Detector, ticks: seq<Tick>) {
    var n, low, high := |ticks|, Count(ticks, Low), Count(ticks, High);
    if n < WINDOW then low == high == 0
    else if d.disarmed then low * k.interval + high - 1 <= n - WINDOW
    else InCadence(low, high, d.since, d.streak > 0, k.interval, n - WINDOW)
  }

  lemma QuietFrame(low: int, high: int, since: int, interval: int, n: int)
    requires InCadence(low, high, since, false, interval, n)
    ensures InCadence(low, high, since + 1, false, interval, n + 1)
  {
  }

  lemma MissedFrame(low: int, high: int, since: int, hot: bool, interval: int, n: int)
    requires InCadence(low, high, since, hot, interval, n) && since + 1 == if hot then 1 else interval
    ensures InCadence(low + 1, high, 0, false, interval, n + 1)
  {
    assert (low + 1 - 1) * interval == low * interval;
    assert (low - 1) * interval + interval == low * interval;
  }

  lemma HitFrame(low: int, high: int, since: int, hot: bool, interval: int, n: int)
    requires InCadence(low, high, since, hot, interval, n) && since + 1 == if hot then 1 else interval
    ensures InCadence(low, high + 1, 0, true, interval, n + 1)
  {
    assert (low - 1) * interval + interval == low * interval;
  }

  lemma CountAppend(ticks: seq<Tick>, tick: Tick)
    ensures forall score :: Count(ticks + [tick], score) == Count(ticks, score) + if tick == Scored(score) then 1 else 0
  {
    assert (ticks + [tick])[..|ticks|] == ticks;
  }

  /** The first full window gets an inference at once. */
  lemma FirstWindow(k: Cadence, model: Model, heard: seq<Pcm>, d: Detector, ticks: seq<Tick>, pcm: Pcm)
    requires ValidCadence(k) && Tracks(k, heard, d, ticks) && |heard| < WINDOW
    requires Count(ticks, Low) == Count(ticks, High) == 0
    ensures !d.disarmed && d.streak == 0 && d.since == k.interval - 1
    ensures Hear(k, model, d, pcm).1 != Quiet <==> |heard| == WINDOW - 1
  {
    hide HitsEndAt, MissesAreSpaced, Pushed, LastWindow;
    PushedIsWindow(heard, pcm);
    if d.disarmed {
      FiredNeedsHits(k, ticks);
      assert false;
    }
    if ticks != [] { assert ticks[|ticks| - 1] == Quiet; }
  }

  /** Afterwards an inference comes exactly when the time since the last one is up. */
  lemma LaterWindow(k: Cadence, model: Model, heard: seq<Pcm>, d: Detector, ticks: seq<Tick>, pcm: Pcm)
    requires ValidCadence(k) && Tracks(k, heard, d, ticks) && |heard| >= WINDOW && !d.disarmed
    ensures d.since + 1 <= (if d.streak > 0 then 1 else k.interval)
    ensures Hear(k, model, d, pcm).1 != Quiet <==> d.since + 1 == if d.streak > 0 then 1 else k.interval
  {
    hide FiredBefore, HitsEndAt, MissesAreSpaced, Pushed, LastWindow, HitsAtEnd;
    PushedIsWindow(heard, pcm);
  }

  lemma HearCounts(k: Cadence, model: Model, d: Detector, pcm: Pcm)
    ensures var (t, tick) := Hear(k, model, d, pcm);
      && (d.disarmed ==> tick == Quiet && t == d)
      && (!d.disarmed && tick == Scored(Low) ==> t.since == 0 && t.streak == 0 && !t.disarmed)
      && (!d.disarmed && tick == Scored(High) ==> t.since == 0 && t.streak == d.streak + 1)
      && (!d.disarmed && tick == Quiet ==> !t.disarmed && t.streak == d.streak)
      && (!d.disarmed && tick == Quiet && |Pushed(d.frames, pcm)| >= WINDOW ==> t.since == d.since + 1)
  {
  }

  lemma HearIsCadenced(k: Cadence, model: Model, heard: seq<Pcm>, d: Detector, ticks: seq<Tick>, pcm: Pcm)
    requires ValidCadence(k) && Tracks(k, heard, d, ticks) && Hear(k, model, d, pcm).1 != Scored(Failed)
    requires Cadenced(k, d, ticks)
    ensures Cadenced(k, Hear(k, model, d, pcm).0, ticks + [Hear(k, model, d, pcm).1])
  {
    var (t, tick) := Hear(k, model, d, pcm);
    var low, high, n := Count(ticks, Low), Count(ticks, High), |ticks| - WINDOW;
    CountAppend(ticks, tick);
    HearCounts(k, model, d, pcm);
    if |ticks| < WINDOW {
      FirstWindow(k, model, heard, d, ticks, pcm);
      NoneYet(k.interval);
      hide Hear, Count, Tracks;
      assert n == -1 || tick == Quiet;
    } else if !d.disarmed {
      LaterWindow(k, model, heard, d, ticks, pcm);
      WindowIsFull(k, heard, d, ticks, pcm);
      if tick == Quiet {
        QuietFrame(low, high, d.since, k.interval, n);
      } else if tick == Scored(Low) {
        MissedFrame(low, high, d.since, d.streak > 0, k.interval, n);
      } else {
        HitFrame(low, high, d.since, d.streak > 0, k.interval, n);
      }
      hide Hear, Count, Tracks;
    }
  }

  lemma NoneYet(interval: int)
    ensures InCadence(1, 0, 0, false, interval, 0) && InCadence(0, 1, 0, true, interval, 0)
  {
  }

  lemma WindowIsFull(k: Cadence, heard: seq<Pcm>, d: Detector, ticks: seq<Tick>, pcm: Pcm)
    requires Tracks(k, heard, d, ticks) && |heard| >= WINDOW && !d.disarmed
    ensures |Pushed(d.frames, pcm)| >= WINDOW
  {
    PushedIsWindow(heard, pcm);
  }

  lemma {:induction false} ListenIsCadenced(k: Cadence, model: Model, heard: seq<Pcm>)
    requires ValidCadence(k) && !Failure(Listen(k, model, heard).1)
    ensures Cadenced(k, Listen(k, model, heard).0, Listen(k, model, heard).1)
  {
    hide Hear, Tracks, Cadenced, AllDeclared;
    if heard == [] {
      assert Cadenced(k, Rearmed(k), []) by { NothingIsCadenced(k); }
    } else {
      var n := |heard| - 1;
      var (d, ticks) := Listen(k, model, heard[..n]);
      var tick := Hear(k, model, d, heard[n]).1;
      assert (ticks + [tick])[|ticks|] == tick;
      assert forall x :: x in ticks ==> x in ticks + [tick];
      ListenTracks(k, model, heard[..n]);
      ListenIsCadenced(k, model, heard[..n]);
      HearIsCadenced(k, model, heard[..n], d, ticks, heard[n]);
    }
  }

  lemma NothingIsCadenced(k: Cadence)
    ensures Cadenced(k, Rearmed(k), [])
  {
  }

  /** How often the model runs: never more than the cadence allows, and exactly that often without hits. */
  lemma InferencesFollowTheCadence(k: Cadence, model: Model, heard: seq<Pcm>)
    requires ValidCadence(k) && |heard| >= WINDOW && !Failure(Listen(k, model, heard).1)
    ensures var ticks := Listen(k, model, heard).1;
      && (Count(ticks, Low) - 1) * k.interval + Count(ticks, High) <= |heard| - WINDOW
      && (Count(ticks, High) == 0 ==> Count(ticks, Low) == 1 + (|heard| - WINDOW) / k.interval)
  {
    hide Tracks, Cadenced, Count, Listen;
    ListenTracks(k, model, heard);
    ListenIsCadenced(k, model, heard);
    CadenceBounds(k, heard, Listen(k, model, heard).0, Listen(k, model, heard).1);
  }

  lemma CadenceBounds(k: Cadence, heard: seq<Pcm>, d: Detector, ticks: seq<Tick>)
    requires ValidCadence(k) && |heard| >= WINDOW && Tracks(k, heard, d, ticks) && Cadenced(k, d, ticks)
    ensures (Count(ticks, Low) - 1) * k.interval + Count(ticks, High) <= |heard| - WINDOW
    ensures Count(ticks, High) == 0 ==> Count(ticks, Low) == 1 + (|heard| - WINDOW) / k.interval
  {
    hide FiredBefore, HitsEndAt, MissesAreSpaced, Count, HitsAtEnd, LastWindow;
    var low := Count(ticks, Low);
    assert (low - 1) * k.interval == low * k.interval - k.interval;
    if Count(ticks, High) == 0 {
      if d.disarmed { FiredNeedsHits(k, ticks); }
      HitsAreCounted(ticks);
      Quotient(low - 1, k.interval, d.since, |heard| - WINDOW);
    }
  }

  lemma {:induction false} HitsAreCounted(ticks: seq<Tick>)
    ensures HitsAtEnd(ticks) <= Count(ticks, High)
  {
    if ticks != [] { HitsAreCounted(ticks[..|ticks| - 1]); }
  }

  lemma {:induction false} FiredNeedsHits(k: Cadence, ticks: seq<Tick>)
    requires k.hits >= 1 && FiredBefore(k, ticks, |ticks|)
    ensures Count(ticks, High) > 0
  {
    var j :| 0 <= j < |ticks| && HitsEndAt(k, ticks, j);
    if j < |ticks| - 1 {
      var shorter := ticks[..|ticks| - 1];
      assert HitsEndAt(k, shorter, j);
      FiredNeedsHits(k, shorter);
    }
  }

  lemma Quotient(q: int, m: nat, r: int, n: int)
    requires m > 0 && 0 <= r < m && q * m + r == n
    ensures q == n / m
  {
    var k := n / m;
    assert n == k * m + n % m;
    assert (q - k) * m == q * m - k * m;
    if q > k { MultipleIsLarge(q - k, m); }
    if q < k { MultipleIsLarge(k - q, m); }
  }

  lemma MultipleIsLarge(x: int, m: int)
    requires x >= 1 && m > 0
    ensures x * m >= m
  {
  }

  // ---- The detector itself

  datatype Answer = Heard | NotHeard | BadFrame | NotStarted | InferenceFailed

  class LiveKitWakeWordDetector {
    const k: Cadence
    const model: Model
    var started: bool
    var frames: seq<Pcm>
    var framesSinceInference: int
    var activationStreak: nat
    var disarmed: bool
    var inferenceCount: nat
    ghost var heard: seq<Pcm>

    function View(): Detector
      reads this
    {
      Detector(frames, framesSinceInference, activationStreak, disarmed)
    }

    /** The fields are what the frames heard since the last reset make of them. */
    ghost predicate Valid()
      reads this
    {
      ValidCadence(k) && View() == Listen(k, model, heard).0
    }

    constructor (k: Cadence, model: Model)
      requires ValidCadence(k)
      ensures Valid() && !started && heard == [] && this.k == k && this.model == model
    {
      this.k, this.model := k, model;
      started := false;
      frames, framesSinceInference, activationStreak, disarmed := [], k.interval - 1, 0, false;
      inferenceCount := 0;
      heard := [];
    }

    method Start(loads: bool) returns (ok: bool)
      requires Valid()
      modifies this
      ensures Valid() && ok == (old(started) || loads) && started == ok
      ensures if old(started) || !loads then View() == old(View()) && heard == old(heard)
              else heard == [] && inferenceCount == 0
    {
      if started { return true; }
      if !loads { return false; }
      started := true;
      frames, framesSinceInference, activationStreak, disarmed := [], k.interval - 1, 0, false;
      inferenceCount := 0;
      heard := [];
      ok := true;
    }

    method Stop()
      requires ValidCadence(k)
      modifies this
      ensures Valid() && heard == [] && !started
    {
      started := false;
      frames, framesSinceInference, activationStreak, disarmed := [], k.interval - 1, 0, false;
      inferenceCount := 0;
      heard := [];
    }

    method Reset()
      requires ValidCadence(k)
      modifies this
      ensures Valid() && heard == [] && started == old(started) && inferenceCount == old(inferenceCount)
    {
      frames, framesSinceInference, activationStreak, disarmed := [], k.interval - 1, 0, false;
      heard := [];
    }

    method Detect(pcm: Pcm) returns (r: Answer)
      requires Valid()
      modifies this
      ensures Valid() && started == old(started)
      ensures r == BadFrame <==> |pcm| != FRAME_BYTES
      ensures r == NotStarted <==> |pcm| == FRAME_BYTES && !started
      ensures if r in {BadFrame, NotStarted} then View() == old(View()) && heard == old(heard)
              else heard == old(heard) + [pcm] && (r == Heard <==> Fires(k, model, heard))
      ensures r == InferenceFailed ==> Failure(Listen(k, model, heard).1)
    {
      hide Hear;
      if |pcm| != FRAME_BYTES { return BadFrame; }
      if !started { return NotStarted; }
      r := Advance(pcm);
      heard := heard + [pcm];
      assert heard[..|heard| - 1] == old(heard);
    }

    /** The part of detect() that follows its checks. */
    method Advance(pcm: Pcm) returns (r: Answer)
      modifies this`frames, this`framesSinceInference, this`activationStreak, this`disarmed, this`inferenceCount
      ensures View() == Hear(k, model, old(View()), pcm).0
      ensures r == Heard <==> disarmed && !old(disarmed)
      ensures r == InferenceFailed <==> Hear(k, model, old(View()), pcm).1 == Scored(Failed)
      ensures r in {Heard, NotHeard, InferenceFailed}
      ensures inferenceCount == old(inferenceCount) +
                if Hear(k, model, old(View()), pcm).1 in {Scored(Low), Scored(High)} then 1 else 0
    {
      if disarmed { return NotHeard; }
      frames := frames + [pcm];
      if |frames| > WINDOW { frames := frames[|frames| - WINDOW..]; }
      assert frames == Pushed(old(frames), pcm);
      if |frames| < WINDOW { return NotHeard; }
      framesSinceInference := framesSinceInference + 1;
      var interval := if activationStreak > 0 then 1 else k.interval;
      if framesSinceInference < interval { return NotHeard; }
      framesSinceInference := 0;
      var score := model(frames);
      if score == Failed { return InferenceFailed; }
      inferenceCount := inferenceCount + 1;
      if score == Low {
        activationStreak := 0;
        return NotHeard;
      }
      activationStreak := activationStreak + 1;
      if activationStreak < k.hits { return NotHeard; }
      disarmed := true;
      r := Heard;
    }
  }
}
