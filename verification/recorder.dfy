// The recorder: one utterance out of a stream of frames, with a pre-roll, a start after enough loud
// frames and an end after enough silence. Times are seconds; a frame lasts FRAME.
module Recorders {
  import opened Policy
  import opened AudioInputs

  const FRAME: real := 0.08
  const TOLERANCE: real := 0.000000001

  datatype RecorderSettings = RecorderSettings(
    startFrames: nat, silence: real, minimum: real, maxFrames: nat, prerollFrames: nat)

  predicate ValidRecorder(q: RecorderSettings) {
    q.startFrames >= 1 && q.maxFrames >= 1 && q.prerollFrames >= 1
  }

  /** The arguments of record(). */
  datatype Job = Job(deadline: real, initial: seq<Chunk>, streak: nat)

  /**
   * What the reads of one recording return: these frames, with the clock before each read and before the
   * one after the last frame, which either times out or has not returned yet; and the clock when the
   * utterance starts.
   */
  datatype Session = Session(chunks: seq<Chunk>, clock: seq<real>, startedAt: real, timesOut: bool)

  predicate ValidSession(x: Session) {
    |x.clock| == |x.chunks| + 1
  }

  datatype End = BySilence | ByMaxDuration

  datatype Recording = Unfinished | NoSpeech | TooShort | Utterance(frames: seq<Chunk>, end: End)

  // ---- The utterance, read off the frames

  predicate AboveFrom(chunks: seq<Chunk>, from: int, to: int)
    requires 0 <= from && to < |chunks|
  {
    forall i :: from <= i <= to ==> chunks[i].above
  }

  predicate BelowFrom(chunks: seq<Chunk>, from: int, to: int)
    requires 0 <= from && to < |chunks|
  {
    forall i :: from <= i <= to ==> !chunks[i].above
  }

  /** Frame i completes the loud frames that start an utterance; the given streak counts if unbroken. */
  predicate Completes(q: RecorderSettings, j: Job, chunks: seq<Chunk>, i: nat)
    requires i < |chunks|
  {
    && chunks[i].above
    && ((i + 1 >= q.startFrames && AboveFrom(chunks, i + 1 - q.startFrames, i))
        || (AboveFrom(chunks, 0, i) && j.streak + i + 1 >= q.startFrames))
  }

  /** The first frame from i on that starts the utterance, or before which the deadline has passed. */
  function StartIndex(q: RecorderSettings, j: Job, x: Session, i: nat): (s: nat)
    requires ValidSession(x) && i <= |x.chunks|
    ensures i <= s <= |x.chunks|
    ensures forall k :: i <= k < s ==> x.clock[k] < j.deadline && !Completes(q, j, x.chunks, k)
    ensures s < |x.chunks| ==> x.clock[s] >= j.deadline || Completes(q, j, x.chunks, s)
    decreases |x.chunks| - i
  {
    hide Completes;
    if i == |x.chunks| || x.clock[i] >= j.deadline || Completes(q, j, x.chunks, i) then i
    else StartIndex(q, j, x, i + 1)
  }

  /** An unbroken silence from frame b on, after s, is long enough at frame i. */
  predicate SilentFrom(q: RecorderSettings, chunks: seq<Chunk>, s: nat, b: nat, i: nat)
    requires s < b <= i < |chunks|
  {
    chunks[b - 1].above && BelowFrom(chunks, b, i)
    && chunks[i].capturedAt - chunks[b].capturedAt + FRAME + TOLERANCE >= q.silence
  }

  predicate SilentAt(q: RecorderSettings, chunks: seq<Chunk>, s: nat, i: nat)
    requires i < |chunks|
  {
    exists b: nat :: s < b <= i && SilentFrom(q, chunks, s, b, i)
  }

  /** Frame i ends an utterance which had `count` frames at its start frame s. */
  predicate EndsAt(q: RecorderSettings, chunks: seq<Chunk>, s: nat, count: nat, i: nat)
    requires i < |chunks|
  {
    SilentAt(q, chunks, s, i) || count + (i - s) >= q.maxFrames
  }

  /** The first frame from i on that does. */
  function EndIndex(q: RecorderSettings, chunks: seq<Chunk>, s: nat, count: nat, i: nat): (e: nat)
    requires s < i <= |chunks|
    ensures i <= e <= |chunks|
    ensures forall k :: i <= k < e ==> !EndsAt(q, chunks, s, count, k)
    ensures e < |chunks| ==> EndsAt(q, chunks, s, count, e)
    decreases |chunks| - i
  {
    hide EndsAt;
    if i == |chunks| || EndsAt(q, chunks, s, count, i) then i
    else EndIndex(q, chunks, s, count, i + 1)
  }

  /** The first frame of the loud run that ends at frame i. */
  function RunBegin(chunks: seq<Chunk>, i: nat): (b: nat)
    requires i < |chunks| && chunks[i].above
    ensures b <= i && AboveFrom(chunks, b, i) && (b > 0 ==> !chunks[b - 1].above)
  {
    if i == 0 || !chunks[i - 1].above then i else RunBegin(chunks, i - 1)
  }

  /** The last loud frame up to frame i. */
  function LastAbove(chunks: seq<Chunk>, s: nat, i: nat): (k: nat)
    requires s <= i < |chunks| && chunks[s].above
    ensures s <= k <= i && chunks[k].above && BelowFrom(chunks, k + 1, i)
  {
    if chunks[i].above then i else LastAbove(chunks, s, i - 1)
  }

  /** A time of 0 counts as no time. */
  function OrElse(time: Option<real>, other: real): real {
    if time.Some? && time.value != 0.0 then time.value else other
  }

  function VoicedSince(j: Job, chunks: seq<Chunk>, s: nat): real
    requires s < |chunks| && chunks[s].above
  {
    var b := RunBegin(chunks, s);
    OrElse(if b > 0 || j.streak == 0 then Some(chunks[b].capturedAt)
           else if j.initial != [] then Some(j.initial[|j.initial| - 1].capturedAt)
           else None,
           chunks[s].capturedAt)
  }

  /** An utterance of these frames, voiced between two moments. */
  function Finished(q: RecorderSettings, frames: seq<Chunk>, since: real, last: real, end: End): Recording {
    if last - since + FRAME + TOLERANCE < q.minimum then TooShort
    else Utterance(Cut(frames, q.maxFrames), end)
  }

  function Preroll(q: RecorderSettings, j: Job, chunks: seq<Chunk>, s: nat): seq<Chunk>
    requires s < |chunks|
  {
    LastOf(q.prerollFrames, j.initial + chunks[..s + 1])
  }

  /** The utterance that starts at frame s with the frames `first`, voiced since some moment. */
  function RecordedFrom(q: RecorderSettings, x: Session, s: nat, first: seq<Chunk>, since: real): Recording
    requires s < |x.chunks| && x.chunks[s].above
  {
    if |first| >= q.maxFrames then Finished(q, first, since, x.chunks[s].capturedAt, ByMaxDuration)
    else
      var e := EndIndex(q, x.chunks, s, |first|, s + 1);
      if e < |x.chunks| then
        Finished(q, first + x.chunks[s + 1..e + 1], since, x.chunks[LastAbove(x.chunks, s, e)].capturedAt,
                 if SilentAt(q, x.chunks, s, e) then BySilence else ByMaxDuration)
      else if x.timesOut then
        Finished(q, first + x.chunks[s + 1..e], since, x.chunks[LastAbove(x.chunks, s, e - 1)].capturedAt, ByMaxDuration)
      else Unfinished
  }

  function NotNegative(x: real): real {
    if x < 0.0 then 0.0 else x
  }

  /** The timeout of read i: up to the deadline before the start, then for the frames still missing. */
  function Patience(q: RecorderSettings, j: Job, x: Session, i: nat): real
    requires ValidSession(x) && i <= |x.chunks|
  {
    var s := StartIndex(q, j, x, 0);
    if i <= s then NotNegative(j.deadline - x.clock[i])
    else
      var missing := q.maxFrames - |Preroll(q, j, x.chunks, s)|;
      NotNegative(OrElse(Some(x.startedAt + missing as real * FRAME), x.clock[i]) - x.clock[i])
  }

  function Recorded(q: RecorderSettings, j: Job, x: Session): Recording
    requires ValidSession(x)
  {
    var s := StartIndex(q, j, x, 0);
    if x.clock[s] >= j.deadline then NoSpeech
    else if s == |x.chunks| then if x.timesOut then NoSpeech else Unfinished
    else RecordedFrom(q, x, s, Preroll(q, j, x.chunks, s), VoicedSince(j, x.chunks, s))
  }

  // ---- What that means

  function PrerollBegin(q: RecorderSettings, j: Job, s: nat): nat {
    if |j.initial| + s + 1 > q.prerollFrames then |j.initial| + s + 1 - q.prerollFrames else 0
  }

  lemma FramesAreContiguous(q: RecorderSettings, j: Job, chunks: seq<Chunk>, s: nat, to: nat)
    requires s < to <= |chunks|
    ensures Preroll(q, j, chunks, s) + chunks[s + 1..to]
         == (j.initial + chunks)[PrerollBegin(q, j, s)..|j.initial| + to]
  {
  }

  /** A finished utterance is one unbroken stretch of everything heard, cut to the longest length. */
  lemma UtteranceIsContiguous(q: RecorderSettings, j: Job, x: Session)
    requires ValidRecorder(q) && ValidSession(x) && Recorded(q, j, x).Utterance?
    ensures var s := StartIndex(q, j, x, 0);
      var all, frames, from := j.initial + x.chunks, Recorded(q, j, x).frames, PrerollBegin(q, j, s);
      && s < |x.chunks| && Completes(q, j, x.chunks, s)
      && 1 <= |frames| <= q.maxFrames
      && from + |frames| <= |all| && frames == all[from..from + |frames|]
  {
    hide StartIndex, AboveFrom, LastOf, VoicedSince, RecordedFrom;
    var s := StartIndex(q, j, x, 0);
    var first := Preroll(q, j, x.chunks, s);
    var to := RecordedFromTakes(q, x, s, first, VoicedSince(j, x.chunks, s));
    FramesAreContiguous(q, j, x.chunks, s, to);
    var whole := (j.initial + x.chunks)[PrerollBegin(q, j, s)..|j.initial| + to];
    CutIsContiguous(j.initial + x.chunks, PrerollBegin(q, j, s), |j.initial| + to, q.maxFrames);
  }

  /** Frame s starts the utterance: it is the first to complete the loud frames, and in time. */
  predicate StartsAt(q: RecorderSettings, j: Job, x: Session, s: int)
    requires ValidSession(x)
  {
    && 0 <= s < |x.chunks| && Completes(q, j, x.chunks, s)
    && (forall k :: 0 <= k < s ==> !Completes(q, j, x.chunks, k))
    && (forall k :: 0 <= k <= s ==> x.clock[k] < j.deadline)
  }

  /** No utterance starts: the deadline comes, or a read times out, before the loud frames are complete. */
  predicate NothingStarts(q: RecorderSettings, j: Job, x: Session)
    requires ValidSession(x)
  {
    || (x.timesOut && forall k :: 0 <= k < |x.chunks| ==> !Completes(q, j, x.chunks, k))
    || exists i :: 0 <= i <= |x.chunks| && x.clock[i] >= j.deadline
                   && forall k :: 0 <= k < i ==> !Completes(q, j, x.chunks, k)
  }

  /** Frame e is the first from s on that ends the utterance: by enough silence, or by its length. */
  predicate LastsTo(q: RecorderSettings, chunks: seq<Chunk>, s: int, count: nat, e: int) {
    && 0 <= s <= e < |chunks|
    && (SilentAt(q, chunks, s, e) || count + (e - s) >= q.maxFrames)
    && (forall k :: s <= k < e ==> !SilentAt(q, chunks, s, k) && count + (k - s) < q.maxFrames)
  }

  /**
   * The voice began with the first frame of the loud run that frame s ends, or with the last one given if
   * the run goes back to those; a time of 0 counts as none, and then frame s tells.
   */
  ghost predicate VoiceBegan(j: Job, chunks: seq<Chunk>, s: nat, since: real)
    requires s < |chunks|
  {
    exists b {:trigger AboveFrom(chunks, b, s)} :: 0 <= b <= s && AboveFrom(chunks, b, s) && (b > 0 ==> !chunks[b - 1].above)
      && var told := if b > 0 || j.streak == 0 then Some(chunks[b].capturedAt)
                     else if j.initial != [] then Some(j.initial[|j.initial| - 1].capturedAt)
                     else None;
         since == if told.Some? && told.value != 0.0 then told.value else chunks[s].capturedAt
  }

  /** The recording of everything from the pre-roll to frame e, if the voice in it is long enough. */
  ghost predicate Keeps(q: RecorderSettings, j: Job, chunks: seq<Chunk>, s: nat, e: nat, end: End, r: Recording)
    requires s <= e < |chunks|
  {
    var all := (j.initial + chunks)[PrerollBegin(q, j, s)..|j.initial| + e + 1];
    exists since: real, k {:trigger VoiceBegan(j, chunks, s, since), BelowFrom(chunks, k + 1, e)} ::
      && VoiceBegan(j, chunks, s, since)
      && s <= k <= e && chunks[k].above && BelowFrom(chunks, k + 1, e)
      && r == if chunks[k].capturedAt - since + FRAME + TOLERANCE < q.minimum then TooShort
              else Utterance(if |all| > q.maxFrames then all[..q.maxFrames] else all, end)
  }

  /** How many frames the pre-roll has at its start frame s. */
  function PrerollCount(q: RecorderSettings, j: Job, s: nat): nat {
    |j.initial| + s + 1 - PrerollBegin(q, j, s)
  }

  /** The same for an utterance that starts at frame s: it lasts to its end, or to the read that times out. */
  ghost predicate DeclaredFrom(q: RecorderSettings, j: Job, x: Session, s: nat, r: Recording)
    requires s < |x.chunks|
  {
    var count := PrerollCount(q, j, s);
    && (forall e :: LastsTo(q, x.chunks, s, count, e) ==>
          Keeps(q, j, x.chunks, s, e, if SilentAt(q, x.chunks, s, e) then BySilence else ByMaxDuration, r))
    && ((forall e :: !LastsTo(q, x.chunks, s, count, e)) ==>
          if x.timesOut then Keeps(q, j, x.chunks, s, |x.chunks| - 1, ByMaxDuration, r) else r == Unfinished)
  }

  /** What the recording of a session is, whatever the loop does. */
  ghost predicate Declared(q: RecorderSettings, j: Job, x: Session, r: Recording)
    requires ValidSession(x)
  {
    && (r == NoSpeech <==> NothingStarts(q, j, x))
    && (r == Unfinished ==> !x.timesOut)
    && (r.Utterance? || r == TooShort ==> exists s :: StartsAt(q, j, x, s))
    && (forall s :: StartsAt(q, j, x, s) ==> DeclaredFrom(q, j, x, s, r))
  }

  lemma StartIsIndex(q: RecorderSettings, j: Job, x: Session, s: int)
    requires ValidSession(x)
    ensures var i := StartIndex(q, j, x, 0);
      && (StartsAt(q, j, x, s) <==> s == i < |x.chunks| && x.clock[i] < j.deadline)
      && (NothingStarts(q, j, x) <==> x.clock[i] >= j.deadline || (i == |x.chunks| && x.timesOut))
  {
    hide Completes;
  }

  lemma OneEnd(q: RecorderSettings, chunks: seq<Chunk>, s: nat, count: nat, e: int, f: int)
    requires LastsTo(q, chunks, s, count, e) && LastsTo(q, chunks, s, count, f)
    ensures e == f
  {
    assert SilentAt(q, chunks, s, e) || count + (e - s) >= q.maxFrames;
    assert SilentAt(q, chunks, s, f) || count + (f - s) >= q.maxFrames;
    hide SilentAt;
  }

  lemma IndexIsEnd(q: RecorderSettings, chunks: seq<Chunk>, s: nat, count: nat)
    requires s < |chunks| && count < q.maxFrames
    ensures var i := EndIndex(q, chunks, s, count, s + 1); i < |chunks| ==> LastsTo(q, chunks, s, count, i)
    ensures forall e :: LastsTo(q, chunks, s, count, e) ==> EndIndex(q, chunks, s, count, s + 1) <= e
  {
    assert !SilentAt(q, chunks, s, s);
    hide SilentAt, EndIndex;
    var i := EndIndex(q, chunks, s, count, s + 1);
    forall k | s <= k < i ensures !SilentAt(q, chunks, s, k) && count + (k - s) < q.maxFrames {
      if s < k { assert !EndsAt(q, chunks, s, count, k); }
    }
    if i < |chunks| { assert EndsAt(q, chunks, s, count, i); }
    forall e | LastsTo(q, chunks, s, count, e) ensures i <= e {
      assert SilentAt(q, chunks, s, e) || count + (e - s) >= q.maxFrames;
    }
  }

  lemma EndIsIndex(q: RecorderSettings, chunks: seq<Chunk>, s: nat, count: nat, e: int)
    requires s < |chunks|
    ensures !SilentAt(q, chunks, s, s)
    ensures if count >= q.maxFrames then LastsTo(q, chunks, s, count, e) <==> e == s
            else LastsTo(q, chunks, s, count, e) <==> e == EndIndex(q, chunks, s, count, s + 1) < |chunks|
  {
    assert !SilentAt(q, chunks, s, s);
    if count >= q.maxFrames {
      assert LastsTo(q, chunks, s, count, s);
      if LastsTo(q, chunks, s, count, e) { OneEnd(q, chunks, s, count, s, e); }
    } else {
      IndexIsEnd(q, chunks, s, count);
      var i := EndIndex(q, chunks, s, count, s + 1);
      if i < |chunks| && LastsTo(q, chunks, s, count, e) { OneEnd(q, chunks, s, count, i, e); }
      assert LastsTo(q, chunks, s, count, e) ==> e < |chunks|;
      hide LastsTo, SilentAt, EndIndex;
    }
  }

  lemma FinishedKeeps(q: RecorderSettings, j: Job, chunks: seq<Chunk>, s: nat, e: nat, end: End)
    requires s <= e < |chunks| && chunks[s].above
    ensures Keeps(q, j, chunks, s, e, end,
                  Finished(q, Preroll(q, j, chunks, s) + chunks[s + 1..e + 1], VoicedSince(j, chunks, s),
                           chunks[LastAbove(chunks, s, e)].capturedAt, end))
  {
    FramesAreContiguous(q, j, chunks, s, e + 1);
    VoicedSinceBegan(j, chunks, s);
    var k := LastAbove(chunks, s, e);
    assert VoiceBegan(j, chunks, s, VoicedSince(j, chunks, s)) && BelowFrom(chunks, k + 1, e);
    hide VoiceBegan, VoicedSince, LastAbove, BelowFrom, Preroll;
  }

  lemma VoicedSinceBegan(j: Job, chunks: seq<Chunk>, s: nat)
    requires s < |chunks| && chunks[s].above
    ensures VoiceBegan(j, chunks, s, VoicedSince(j, chunks, s))
  {
    assert AboveFrom(chunks, RunBegin(chunks, s), s);
  }

  /** The frame that ends the utterance, or the number of frames if none does. */
  function EndOf(q: RecorderSettings, x: Session, s: nat, count: nat): (e: nat)
    requires s < |x.chunks|
    ensures s <= e <= |x.chunks|
  {
    if count >= q.maxFrames then s else EndIndex(q, x.chunks, s, count, s + 1)
  }

  /** The last frame of an utterance that is over: its end, or the one before the read that times out. */
  function LastFrame(q: RecorderSettings, x: Session, s: nat, count: nat): (e: nat)
    requires s < |x.chunks|
    ensures s <= e < |x.chunks|
  {
    if EndOf(q, x, s, count) < |x.chunks| then EndOf(q, x, s, count) else |x.chunks| - 1
  }

  function CauseOf(q: RecorderSettings, x: Session, s: nat, count: nat): End
    requires s < |x.chunks|
  {
    var e := EndOf(q, x, s, count);
    if e < |x.chunks| && SilentAt(q, x.chunks, s, e) then BySilence else ByMaxDuration
  }

  /** One form for an utterance that is complete with its pre-roll, and for one that goes on. */
  lemma RecordedFromEnds(q: RecorderSettings, x: Session, s: nat, first: seq<Chunk>, since: real)
    requires s < |x.chunks| && x.chunks[s].above
    ensures RecordedFrom(q, x, s, first, since) ==
      if EndOf(q, x, s, |first|) < |x.chunks| || x.timesOut then
        var last := LastFrame(q, x, s, |first|);
        Finished(q, first + x.chunks[s + 1..last + 1], since, x.chunks[LastAbove(x.chunks, s, last)].capturedAt,
                 CauseOf(q, x, s, |first|))
      else Unfinished
  {
    EndIsIndex(q, x.chunks, s, |first|, s);
    hide SilentAt, EndIndex, Finished;
    assert first + x.chunks[s + 1..s + 1] == first;
  }

  lemma FinishedIsOver(q: RecorderSettings, frames: seq<Chunk>, since: real, last: real, end: End)
    ensures Finished(q, frames, since, last, end) !in {Unfinished, NoSpeech}
  {
  }

  lemma EndDeclares(q: RecorderSettings, j: Job, x: Session, s: nat, r: Recording)
    requires s < |x.chunks|
    requires var count := PrerollCount(q, j, s);
      if EndOf(q, x, s, count) < |x.chunks| || x.timesOut
      then Keeps(q, j, x.chunks, s, LastFrame(q, x, s, count), CauseOf(q, x, s, count), r)
      else r == Unfinished
    ensures DeclaredFrom(q, j, x, s, r)
  {
    var count := PrerollCount(q, j, s);
    hide PrerollCount, SilentAt, LastsTo, Keeps, EndIndex;
    var end := EndOf(q, x, s, count);
    EndIsIndex(q, x.chunks, s, count, end);
    if end == |x.chunks| {
      forall e ensures !LastsTo(q, x.chunks, s, count, e) { EndIsIndex(q, x.chunks, s, count, e); }
    } else {
      assert LastsTo(q, x.chunks, s, count, end);
      forall e | LastsTo(q, x.chunks, s, count, e) ensures e == end { EndIsIndex(q, x.chunks, s, count, e); }
    }
  }

  lemma RecordedFromIsDeclared(q: RecorderSettings, j: Job, x: Session, s: nat)
    requires ValidSession(x) && s < |x.chunks| && x.chunks[s].above
    ensures var r := RecordedFrom(q, x, s, Preroll(q, j, x.chunks, s), VoicedSince(j, x.chunks, s));
      r != NoSpeech && (r == Unfinished ==> !x.timesOut) && DeclaredFrom(q, j, x, s, r)
  {
    var first, since := Preroll(q, j, x.chunks, s), VoicedSince(j, x.chunks, s);
    assert |first| == PrerollCount(q, j, s);
    hide *;
    var last, cause := LastFrame(q, x, s, |first|), CauseOf(q, x, s, |first|);
    RecordedFromEnds(q, x, s, first, since);
    FinishedKeeps(q, j, x.chunks, s, last, cause);
    FinishedIsOver(q, first + x.chunks[s + 1..last + 1], since, x.chunks[LastAbove(x.chunks, s, last)].capturedAt, cause);
    EndDeclares(q, j, x, s, RecordedFrom(q, x, s, first, since));
  }

  /** The recording is what is declared, said of the frames and the clock alone. */
  lemma RecordingIsDeclared(q: RecorderSettings, j: Job, x: Session)
    requires ValidRecorder(q) && ValidSession(x)
    ensures Declared(q, j, x, Recorded(q, j, x))
  {
    var i := StartIndex(q, j, x, 0);
    hide StartsAt, NothingStarts, StartIndex, RecordedFrom, Preroll, VoicedSince, DeclaredFrom, Completes;
    forall s ensures StartsAt(q, j, x, s) <==> s == i < |x.chunks| && x.clock[i] < j.deadline {
      StartIsIndex(q, j, x, s);
    }
    StartIsIndex(q, j, x, i);
    if i < |x.chunks| && x.clock[i] < j.deadline {
      StartIsLoud(q, j, x);
      RecordedFromIsDeclared(q, j, x, i);
    }
  }

  /**
   * A read before the start may take until the deadline; one after it until the utterance must be full, one
   * frame's time for each frame the pre-roll left room for. That time being 0 counts as none.
   */
  lemma PatienceIsDeclared(q: RecorderSettings, j: Job, x: Session, i: nat)
    requires ValidSession(x) && i <= |x.chunks|
    ensures (forall k :: 0 <= k < i ==> x.clock[k] < j.deadline && !Completes(q, j, x.chunks, k)) ==>
      Patience(q, j, x, i) == if x.clock[i] < j.deadline then j.deadline - x.clock[i] else 0.0
    ensures forall s :: StartsAt(q, j, x, s) && s < i ==>
      var full := x.startedAt + (q.maxFrames - PrerollCount(q, j, s)) as real * FRAME;
      Patience(q, j, x, i) == if full == 0.0 || full < x.clock[i] then 0.0 else full - x.clock[i]
  {
    hide Completes;
    forall s | StartsAt(q, j, x, s)
      ensures s == StartIndex(q, j, x, 0) && |Preroll(q, j, x.chunks, s)| == PrerollCount(q, j, s)
    {
      StartIsIndex(q, j, x, s);
    }
    hide StartsAt, Preroll, PrerollCount;
  }

  lemma StartIsLoud(q: RecorderSettings, j: Job, x: Session)
    requires ValidSession(x)
    ensures var i := StartIndex(q, j, x, 0); i < |x.chunks| && x.clock[i] < j.deadline ==> x.chunks[i].above
  {
  }

  function Cut(frames: seq<Chunk>, n: nat): seq<Chunk> {
    if |frames| > n then frames[..n] else frames
  }

  lemma CutIsContiguous(all: seq<Chunk>, from: nat, to: nat, n: nat)
    requires from <= to <= |all|
    ensures var frames := Cut(all[from..to], n);
      |frames| <= n && from + |frames| <= |all| && frames == all[from..from + |frames|]
  {
  }

  lemma RecordedFromTakes(q: RecorderSettings, x: Session, s: nat, first: seq<Chunk>, since: real) returns (to: nat)
    requires s < |x.chunks| && x.chunks[s].above && RecordedFrom(q, x, s, first, since).Utterance?
    ensures s < to <= |x.chunks|
    ensures RecordedFrom(q, x, s, first, since).frames == Cut(first + x.chunks[s + 1..to], q.maxFrames)
  {
    hide SilentAt, LastAbove;
    if |first| >= q.maxFrames {
      assert first + x.chunks[s + 1..s + 1] == first;
      return s + 1;
    }
    var e := EndIndex(q, x.chunks, s, |first|, s + 1);
    to := if e < |x.chunks| then e + 1 else e;
  }

  /** After its start an utterance reads at most as many frames as the pre-roll left room for. */
  lemma ReadsAreBounded(q: RecorderSettings, chunks: seq<Chunk>, s: nat, count: nat)
    requires s < |chunks| && count < q.maxFrames
    ensures EndIndex(q, chunks, s, count, s + 1) - s <= q.maxFrames - count
  {
    var e := EndIndex(q, chunks, s, count, s + 1);
    assert e > s + 1 ==> !EndsAt(q, chunks, s, count, e - 1);
  }

  lemma TimeoutFinishes(q: RecorderSettings, j: Job, x: Session)
    requires ValidSession(x) && x.timesOut
    ensures Recorded(q, j, x) != Unfinished
  {
  }

  // ---- The loop

  /** The streak counted by the loop after the frames `chunks`. */
  function Streak(j: Job, chunks: seq<Chunk>): nat {
    if chunks == [] then j.streak
    else if chunks[|chunks| - 1].above then Streak(j, chunks[..|chunks| - 1]) + 1
    else 0
  }

  lemma {:induction false} StreakIsRun(j: Job, chunks: seq<Chunk>)
    ensures chunks != [] && chunks[|chunks| - 1].above ==>
              var b := RunBegin(chunks, |chunks| - 1);
              Streak(j, chunks) == |chunks| - b + if b == 0 then j.streak else 0
    ensures chunks != [] && !chunks[|chunks| - 1].above ==> Streak(j, chunks) == 0
  {
    if chunks != [] {
      var n := |chunks| - 1;
      StreakIsRun(j, chunks[..n]);
      if n > 0 && chunks[n].above && chunks[n - 1].above { RunBeginOfPrefix(chunks, n, n - 1); }
    }
  }

  lemma {:induction false} RunBeginOfPrefix(chunks: seq<Chunk>, n: nat, i: nat)
    requires i < n <= |chunks| && chunks[i].above
    ensures RunBegin(chunks[..n], i) == RunBegin(chunks, i)
  {
  }

  /** The count reaches the threshold exactly at a frame that completes the run. */
  lemma StreakCompletes(q: RecorderSettings, j: Job, chunks: seq<Chunk>, i: nat)
    requires i < |chunks| && q.startFrames >= 1
    ensures Streak(j, chunks[..i + 1]) >= q.startFrames <==> Completes(q, j, chunks, i)
    ensures Completes(q, j, chunks, i) ==> chunks[i].above
  {
    var heard := chunks[..i + 1];
    StreakIsRun(j, heard);
    if chunks[i].above {
      RunBeginOfPrefix(chunks, i + 1, i);
      var b := RunBegin(chunks, i);
      assert b > 0 ==> !AboveFrom(chunks, 0, i);
      assert i + 1 >= q.startFrames && b > i + 1 - q.startFrames ==> !AboveFrom(chunks, i + 1 - q.startFrames, i);
    }
  }

  /** The moment on record for the loud run that ends the frames `chunks`. */
  function FirstHigh(j: Job, chunks: seq<Chunk>): Option<real> {
    if chunks != [] && !chunks[|chunks| - 1].above then None
    else if chunks != [] && (RunBegin(chunks, |chunks| - 1) > 0 || j.streak == 0) then
      Some(chunks[RunBegin(chunks, |chunks| - 1)].capturedAt)
    else if j.streak > 0 && j.initial != [] then Some(j.initial[|j.initial| - 1].capturedAt)
    else None
  }

  lemma FirstHighExtends(j: Job, chunks: seq<Chunk>, next: Chunk)
    ensures FirstHigh(j, chunks + [next]) ==
              if !next.above then None else if Streak(j, chunks) == 0 then Some(next.capturedAt)
              else FirstHigh(j, chunks)
  {
    var longer := chunks + [next];
    StreakIsRun(j, chunks);
    if chunks != [] && chunks[|chunks| - 1].above {
      assert longer[..|chunks|] == chunks;
      RunBeginOfPrefix(longer, |chunks|, |chunks| - 1);
    }
  }

  /** When the silence that lasts at frame i began. */
  function SilenceSince(chunks: seq<Chunk>, s: nat, i: nat): Option<real>
    requires s <= i < |chunks| && chunks[s].above
  {
    if chunks[i].above then None else Some(chunks[LastAbove(chunks, s, i) + 1].capturedAt)
  }

  lemma SilentIsMeasured(q: RecorderSettings, chunks: seq<Chunk>, s: nat, i: nat)
    requires s < i < |chunks| && chunks[s].above
    ensures SilentAt(q, chunks, s, i) <==>
      !chunks[i].above && chunks[i].capturedAt - SilenceSince(chunks, s, i).value + FRAME + TOLERANCE >= q.silence
  {
    hide LastAbove, RunBegin;
    var k := LastAbove(chunks, s, i);
    if SilentAt(q, chunks, s, i) {
      var b: nat :| s < b <= i && SilentFrom(q, chunks, s, b, i);
      assert !chunks[i].above;
      QuietBegins(chunks, k + 1, b, i);
    } else if !chunks[i].above {
      assert !SilentFrom(q, chunks, s, k + 1, i);
    }
  }

  lemma QuietBegins(chunks: seq<Chunk>, a: nat, b: nat, i: nat)
    requires 0 < a <= i && 0 < b <= i < |chunks|
    requires chunks[a - 1].above && BelowFrom(chunks, a, i) && chunks[b - 1].above && BelowFrom(chunks, b, i)
    ensures a == b
  {
  }

  /** The loop's variables before the utterance has started. */
  datatype Listener = Listener(preroll: seq<Chunk>, streak: nat, firstHighAt: Option<real>)

  /** And once it has. */
  datatype Taker = Taker(frames: seq<Chunk>, since: real, last: real, silence: Option<real>)

  /** Before read i the variables are a reading of the frames so far. */
  predicate WaitsAt(q: RecorderSettings, j: Job, x: Session, i: nat, v: Listener)
    requires ValidSession(x)
  {
    && i <= StartIndex(q, j, x, 0)
    && v.preroll == LastOf(q.prerollFrames, j.initial + x.chunks[..i])
    && v.streak == Streak(j, x.chunks[..i])
    && v.firstHighAt == FirstHigh(j, x.chunks[..i])
  }

  function Heard(q: RecorderSettings, v: Listener, chunk: Chunk): Listener {
    Listener(LastOf(q.prerollFrames, v.preroll + [chunk]),
             if chunk.above then v.streak + 1 else 0,
             if !chunk.above then None else if v.streak == 0 then Some(chunk.capturedAt) else v.firstHighAt)
  }

  lemma WaitsOn(q: RecorderSettings, j: Job, x: Session, i: nat, v: Listener)
    requires ValidRecorder(q) && ValidSession(x) && WaitsAt(q, j, x, i, v)
    requires i < |x.chunks| && x.clock[i] < j.deadline
    ensures var chunk, v' := x.chunks[i], Heard(q, v, x.chunks[i]);
      if v'.streak < q.startFrames then WaitsAt(q, j, x, i + 1, v')
      else
        && StartIndex(q, j, x, 0) == i && chunk.above
        && v'.preroll == Preroll(q, j, x.chunks, i)
        && OrElse(v'.firstHighAt, chunk.capturedAt) == VoicedSince(j, x.chunks, i)
  {
    hide LastOf, Completes, RunBegin, VoicedSince, StartIndex, FirstHigh, AboveFrom;
    var chunk := x.chunks[i];
    var before := x.chunks[..i];
    assert x.chunks[..i + 1] == before + [chunk];
    assert j.initial + x.chunks[..i + 1] == (j.initial + before) + [chunk];
    LastOfExtends(q.prerollFrames, j.initial + before, chunk);
    StreakCompletes(q, j, x.chunks, i);
    FirstHighExtends(j, before, chunk);
    assert (before + [chunk])[..i] == before;
    if chunk.above { FirstHighIsVoicedSince(j, x.chunks, i); }
  }

  lemma FirstHighIsVoicedSince(j: Job, chunks: seq<Chunk>, i: nat)
    requires i < |chunks| && chunks[i].above
    ensures OrElse(FirstHigh(j, chunks[..i + 1]), chunks[i].capturedAt) == VoicedSince(j, chunks, i)
  {
    RunBeginOfPrefix(chunks, i + 1, i);
  }

  predicate RecordsAt(q: RecorderSettings, x: Session, s: nat, first: seq<Chunk>, i: nat, g: Taker)
  {
    && s < i <= |x.chunks| && x.chunks[s].above
    && |first| < q.maxFrames
    && g.frames == first + x.chunks[s + 1..i]
    && i <= EndIndex(q, x.chunks, s, |first|, s + 1)
    && g.last == x.chunks[LastAbove(x.chunks, s, i - 1)].capturedAt
    && g.silence == SilenceSince(x.chunks, s, i - 1)
  }

  function Taken(g: Taker, chunk: Chunk): Taker {
    Taker(g.frames + [chunk], g.since, if chunk.above then chunk.capturedAt else g.last,
          if chunk.above then None else if g.silence.None? then Some(chunk.capturedAt) else g.silence)
  }

  /** The loop's own test whether this frame ends the utterance. */
  function Ending(q: RecorderSettings, g: Taker, chunk: Chunk): Option<End> {
    if g.silence.Some? && chunk.capturedAt - g.silence.value + FRAME + TOLERANCE >= q.silence then Some(BySilence)
    else if |g.frames| >= q.maxFrames then Some(ByMaxDuration)
    else None
  }

  lemma RecordsOn(q: RecorderSettings, x: Session, s: nat, first: seq<Chunk>, i: nat, g: Taker)
    requires RecordsAt(q, x, s, first, i, g) && i < |x.chunks|
    ensures var g' := Taken(g, x.chunks[i]);
      match Ending(q, g', x.chunks[i])
      case None => RecordsAt(q, x, s, first, i + 1, g')
      case Some(end) => RecordedFrom(q, x, s, first, g.since) == Finished(q, g'.frames, g.since, g'.last, end)
  {
    hide EndIndex, SilentAt, Finished, RunBegin;
    assert x.chunks[s + 1..i + 1] == x.chunks[s + 1..i] + [x.chunks[i]];
    assert g.frames + [x.chunks[i]] == first + x.chunks[s + 1..i + 1];
    SilentIsMeasured(q, x.chunks, s, i);
    assert EndsAt(q, x.chunks, s, |first|, i) <==> SilentAt(q, x.chunks, s, i) || |first| + (i - s) >= q.maxFrames;
  }

  /** The loop has two phases; the second one has a deadline for its reads. */
  datatype Phase = Listening(v: Listener) | Taking(g: Taker, deadline: real)

  predicate At(q: RecorderSettings, j: Job, x: Session, i: nat, p: Phase)
    requires ValidSession(x)
  {
    i <= |x.chunks| &&
    match p
    case Listening(v) => WaitsAt(q, j, x, i, v)
    case Taking(g, deadline) =>
      var s := StartIndex(q, j, x, 0);
      && s < |x.chunks| && s < i && x.chunks[s].above
      && RecordsAt(q, x, s, Preroll(q, j, x.chunks, s), i, g)
      && Recorded(q, j, x) == RecordedFrom(q, x, s, Preroll(q, j, x.chunks, s), g.since)
      && deadline == x.startedAt + (q.maxFrames - |Preroll(q, j, x.chunks, s)|) as real * FRAME
  }

  class RmsRecorder {
    const q: RecorderSettings

    constructor (q: RecorderSettings)
      ensures this.q == q
    {
      this.q := q;
    }

    /** One frame before the start. */
    method Hear(v: Listener, chunk: Chunk) returns (v': Listener)
      ensures v' == Heard(q, v, chunk)
    {
      var preroll := LastOf(q.prerollFrames, v.preroll + [chunk]);
      var streak, firstHighAt := v.streak, v.firstHighAt;
      if chunk.above {
        if streak == 0 { firstHighAt := Some(chunk.capturedAt); }
        streak := streak + 1;
      } else {
        streak := 0;
        firstHighAt := None;
      }
      v' := Listener(preroll, streak, firstHighAt);
    }

    /** One frame after it. */
    method Take(g: Taker, chunk: Chunk) returns (g': Taker, end: Option<End>)
      ensures g' == Taken(g, chunk) && end == Ending(q, g', chunk)
    {
      var last, silence := g.last, g.silence;
      if chunk.above {
        last := chunk.capturedAt;
        silence := None;
      } else if silence.None? {
        silence := Some(chunk.capturedAt);
      }
      g' := Taker(g.frames + [chunk], g.since, last, silence);
      if !chunk.above && chunk.capturedAt - silence.value + FRAME + TOLERANCE >= q.silence {
        return g', Some(BySilence);
      }
      end := if |g'.frames| >= q.maxFrames then Some(ByMaxDuration) else None;
    }

    /** The timeout of the next read. */
    method Wait(j: Job, x: Session, i: nat, p: Phase) returns (wait: real)
      requires ValidSession(x) && At(q, j, x, i, p)
      ensures wait == Patience(q, j, x, i)
    {
      var now := x.clock[i];
      match p
      case Listening(v) => wait := NotNegative(j.deadline - now);
      case Taking(g, deadline) => wait := NotNegative(OrElse(Some(deadline), now) - now);
    }

    /** What a frame makes of the recording: it goes on, or is over. */
    method Advance(j: Job, x: Session, i: nat, p: Phase) returns (p': Phase, r: Option<Recording>)
      requires ValidRecorder(q) && ValidSession(x) && At(q, j, x, i, p)
      requires i < |x.chunks| && (p.Listening? ==> x.clock[i] < j.deadline)
      ensures match r
              case None => At(q, j, x, i + 1, p')
              case Some(recording) => recording == Recorded(q, j, x) && recording != Unfinished
    {
      hide WaitsAt, RecordsAt, VoicedSince, Finished, RecordedFrom, Preroll, Recorded, Heard, Taken, Ending, OrElse,
        StartIndex;
      var chunk := x.chunks[i];
      p', r := p, None;
      match p
      case Listening(v) =>
        WaitsOn(q, j, x, i, v);
        var heard := Hear(v, chunk);
        if heard.streak < q.startFrames { return Listening(heard), None; }
        var since := OrElse(heard.firstHighAt, chunk.capturedAt);
        Starts(q, j, x, i, heard.preroll, since);
        if |heard.preroll| >= q.maxFrames {
          FinishedIsOver(q, heard.preroll, since, chunk.capturedAt, ByMaxDuration);
          return p, Some(Finished(q, heard.preroll, since, chunk.capturedAt, ByMaxDuration));
        }
        p' := Taking(Taker(heard.preroll, since, chunk.capturedAt, None),
                     x.startedAt + (q.maxFrames - |heard.preroll|) as real * FRAME);
      case Taking(g, deadline) =>
        var s := StartIndex(q, j, x, 0);
        RecordsOn(q, x, s, Preroll(q, j, x.chunks, s), i, g);
        SinceStays(g, chunk);
        var taken, end := Take(g, chunk);
        if end.Some? {
          FinishedIsOver(q, taken.frames, taken.since, taken.last, end.value);
          return p, Some(Finished(q, taken.frames, taken.since, taken.last, end.value));
        }
        p' := Taking(taken, deadline);
    }

    /** The recording, and the timeouts its reads were given. */
    method Record(j: Job, x: Session) returns (r: Recording, waits: seq<real>)
      requires ValidRecorder(q) && ValidSession(x)
      ensures r == Recorded(q, j, x)
      ensures |waits| <= |x.chunks| + 1 && forall i :: 0 <= i < |waits| ==> waits[i] == Patience(q, j, x, i)
      ensures r == Unfinished ==> |waits| == |x.chunks| + 1
    {
      hide Patience, At, Recorded;
      var p := Listening(Listener(
        LastOf(q.prerollFrames, j.initial), j.streak,
        if j.streak > 0 && j.initial != [] then Some(j.initial[|j.initial| - 1].capturedAt) else None));
      WaitsAtFirst(q, j, x, p.v);
      waits := [];
      var i: nat := 0;
      while true
        invariant i <= |x.chunks| && |waits| == i
        invariant forall k :: 0 <= k < i ==> waits[k] == Patience(q, j, x, k)
        invariant At(q, j, x, i, p)
        decreases |x.chunks| - i
      {
        if p.Listening? && x.clock[i] >= j.deadline {
          NoLonger(q, j, x, i, p);
          return NoSpeech, waits;
        }
        var wait := Wait(j, x, i, p);
        waits := waits + [wait];
        if i == |x.chunks| {
          NoLonger(q, j, x, i, p);
          if !x.timesOut { return Unfinished, waits; }
          match p {
            case Listening(_) => return NoSpeech, waits;
            case Taking(g, _) => return Finished(q, g.frames, g.since, g.last, ByMaxDuration), waits;
          }
        }
        var result;
        p, result := Advance(j, x, i, p);
        if result.Some? {
          return result.value, waits;
        }
        i := i + 1;
      }
    }
  }

  lemma SinceStays(g: Taker, chunk: Chunk)
    ensures Taken(g, chunk).since == g.since
  {
  }

  lemma WaitsAtFirst(q: RecorderSettings, j: Job, x: Session, v: Listener)
    requires ValidSession(x)
    requires v == Listener(LastOf(q.prerollFrames, j.initial), j.streak,
                           if j.streak > 0 && j.initial != [] then Some(j.initial[|j.initial| - 1].capturedAt) else None)
    ensures At(q, j, x, 0, Listening(v))
  {
    assert j.initial + x.chunks[..0] == j.initial;
  }

  lemma NoLonger(q: RecorderSettings, j: Job, x: Session, i: nat, p: Phase)
    requires ValidSession(x) && At(q, j, x, i, p)
    requires i == |x.chunks| || (p.Listening? && x.clock[i] >= j.deadline)
    ensures Recorded(q, j, x) ==
      match p
      case Listening(_) => if x.clock[i] >= j.deadline || x.timesOut then NoSpeech else Unfinished
      case Taking(g, _) => if x.timesOut then Finished(q, g.frames, g.since, g.last, ByMaxDuration) else Unfinished
  {
    hide WaitsAt, RecordsAt, RecordedFrom, Recorded, Finished;
    match p
    case Listening(v) => WaitsNoLonger(q, j, x, i, v);
    case Taking(g, _) =>
      var s := StartIndex(q, j, x, 0);
      RecordsNoLonger(q, x, s, Preroll(q, j, x.chunks, s), g);
  }

  lemma Starts(q: RecorderSettings, j: Job, x: Session, s: nat, first: seq<Chunk>, since: real)
    requires ValidSession(x) && s < |x.chunks| && x.clock[s] < j.deadline && x.chunks[s].above
    requires StartIndex(q, j, x, 0) == s && since == VoicedSince(j, x.chunks, s) && first == Preroll(q, j, x.chunks, s)
    ensures Recorded(q, j, x) == RecordedFrom(q, x, s, first, since)
    ensures if |first| >= q.maxFrames
            then RecordedFrom(q, x, s, first, since) == Finished(q, first, since, x.chunks[s].capturedAt, ByMaxDuration)
            else RecordsAt(q, x, s, first, s + 1, Taker(first, since, x.chunks[s].capturedAt, None))
  {
    hide VoicedSince, Finished, StartIndex, Preroll;
    assert first == first + x.chunks[s + 1..s + 1];
  }

  lemma WaitsNoLonger(q: RecorderSettings, j: Job, x: Session, i: nat, v: Listener)
    requires ValidSession(x) && WaitsAt(q, j, x, i, v)
    requires i == |x.chunks| || x.clock[i] >= j.deadline
    ensures Recorded(q, j, x) == if x.clock[i] >= j.deadline || x.timesOut then NoSpeech else Unfinished
  {
    hide RecordedFrom, LastOf, Streak, FirstHigh;
  }

  lemma RecordsNoLonger(q: RecorderSettings, x: Session, s: nat, first: seq<Chunk>, g: Taker)
    requires RecordsAt(q, x, s, first, |x.chunks|, g)
    ensures RecordedFrom(q, x, s, first, g.since)
         == if x.timesOut then Finished(q, g.frames, g.since, g.last, ByMaxDuration) else Unfinished
  {
    hide Finished, SilentAt;
  }
}
