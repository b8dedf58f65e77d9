// The voice service: waiting for the wake word, recording, processing, speaking and the follow-up window.
// Every suspension point is a call of Await, during which the microphone goes on capturing.
module VoiceServices {
  import opened Policy
  import opened AudioInputs
  import opened Recorders
  import opened Wakewords

  datatype VoiceState = Disabled | WaitingWake | InRecording | Processing | Speaking | WaitingFollowup | Failed

  datatype Trigger = ByWakeWord | ByFollowup

  datatype VoiceSettings = VoiceSettings(
    startTimeout: real, followupEnabled: bool, followupTimeout: real, followupPrerollFrames: nat)

  /** How a service outside answers: as asked, with an error that ends the turn, or with a fatal one. */
  datatype Reaction = Fine | TurnError | FatalError

  /** What the services outside make of a turn. */
  datatype Outside = Outside(transcript: Reaction, understood: bool, reply: Reaction, speech: Reaction, asksFollowup: bool)

  datatype Outcome = NothingSaid | NotUnderstood | TurnFailed | Replied | Broken

  datatype Turn = Turn(trigger: Trigger, startedAt: real, job: Job, recording: Recording, outside: Outside)

  /** What has come of a turn. */
  function OutcomeOf(t: Turn): Outcome {
    var o := t.outside;
    if !t.recording.Utterance? then NothingSaid
    else if o.transcript != Fine then (if o.transcript == TurnError then TurnFailed else Broken)
    else if !o.understood then NotUnderstood
    else if o.reply != Fine then (if o.reply == TurnError then TurnFailed else Broken)
    else if o.speech != Fine then (if o.speech == TurnError then TurnFailed else Broken)
    else Replied
  }

  /** The recorder has made this recording of the frames read meanwhile. */
  ghost predicate Took(q: RecorderSettings, job: Job, recording: Recording, before: seq<Chunk>, after: seq<Chunk>) {
    exists x :: ValidSession(x) && recording == Recorded(q, job, x) && after == before + x.chunks
  }

  /** Noise, a recording that is too short, or words nobody understood. */
  predicate CameToNothing(t: Turn) {
    OutcomeOf(t) in {NothingSaid, NotUnderstood}
  }

  /** The callbacks that ran during one await with a closed microphone. */
  datatype Hush = Hush(from: nat, to: nat)

  /** None of the frames was captured while the microphone was closed. */
  predicate Unheard(heard: seq<Chunk>, hushes: seq<Hush>) {
    forall i, k :: 0 <= i < |heard| && 0 <= k < |hushes| ==> !(hushes[k].from <= heard[i].serial < hushes[k].to)
  }

  lemma UnheardAppend(heard: seq<Chunk>, hushes: seq<Hush>, hush: Hush)
    requires Unheard(heard, hushes) && forall i :: 0 <= i < |heard| ==> heard[i].serial < hush.from
    ensures Unheard(heard, hushes + [hush])
  {
  }

  class VoiceService {
    const audio: LocalAudioInput
    const wakeword: LiveKitWakeWordDetector
    const recorder: RmsRecorder
    const settings: VoiceSettings
    const sound: Chunk -> Pcm
    var state: VoiceState
    var followupDeadline: Option<real>
    var now: real
    ghost var heard: seq<Chunk>     // frames that reached the detector, the recorder or the follow-up pre-roll
    ghost var hushes: seq<Hush>
    ghost var openings: nat         // follow-up windows opened so far
    ghost var turns: seq<Turn>      // turns run to their end so far
    ghost var faults: nat           // how often a device or a service has failed for good

    ghost predicate Valid()
      reads this, audio, wakeword
    {
      hide IntakeOk, Recorded, Unheard;
      && audio.Valid() && wakeword.Valid() && ValidRecorder(recorder.q) && settings.followupPrerollFrames >= 1
      && Unheard(heard, hushes)
      && (forall i :: 0 <= i < |heard| ==> heard[i].serial < audio.captured)
      && (forall k :: 0 <= k < |hushes| ==> hushes[k].to <= audio.captured)
      && (audio.accepting ==> forall k :: 0 <= k < |hushes| ==> hushes[k].to <= audio.discardedAt)
    }

    /** Between two turns. */
    ghost predicate Idle()
      reads this, audio, wakeword
    {
      hide IntakeOk, Recorded, Unheard;
      && Valid()
      && audio.accepting
      && state in {WaitingWake, WaitingFollowup}
      && (state == WaitingWake <==> followupDeadline.None?)
    }

    /**
     * What the end of a turn leaves. After one that came to nothing the window it was started in goes on,
     * unchanged, if it is still open; a played reply that asks for one opens a new window; anything else
     * waits for the wake word.
     */
    ghost predicate Concluded(t: Turn, original: Option<real>, before: nat)
      reads `state, `followupDeadline, `now, `openings
    {
      match OutcomeOf(t)
      case Replied =>
        if settings.followupEnabled && t.outside.asksFollowup then
          && state == WaitingFollowup && followupDeadline == Some(now + settings.followupTimeout)
          && openings == before + 1
        else state == WaitingWake && openings == before
      case Broken => false
      case TurnFailed => state == WaitingWake && openings == before
      case _ =>
        && openings == before
        && (if original.Some? && now < original.value then state == WaitingFollowup && followupDeadline == original
            else state == WaitingWake)
    }

    constructor (audio: LocalAudioInput, wakeword: LiveKitWakeWordDetector, recorder: RmsRecorder,
                 settings: VoiceSettings, sound: Chunk -> Pcm, now: real)
      requires audio.Valid() && wakeword.Valid() && ValidRecorder(recorder.q) && settings.followupPrerollFrames >= 1
      ensures Valid() && state == Disabled && followupDeadline.None? && heard == [] && hushes == []
      ensures this.audio == audio && this.wakeword == wakeword && this.recorder == recorder
      ensures this.settings == settings
    {
      hide IntakeOk;
      this.audio, this.wakeword, this.recorder, this.settings, this.sound := audio, wakeword, recorder, settings, sound;
      this.now := now;
      state, followupDeadline := Disabled, None;
      heard, hushes, openings, turns, faults := [], [], 0, [], 0;
    }

    // ---- Suspension points

    /**
     * No suspension while the service processes or speaks finds the microphone open. An idle one is a
     * suspension during which neither the microphone's thread nor the calls it scheduled run.
     */
    method Await(idle: bool)
      requires Valid()
      requires state in {Processing, Speaking} ==> !audio.accepting
      modifies this`now, this`hushes, audio
      ensures Valid() && now >= old(now)
      ensures audio.accepting == old(audio.accepting) && audio.captured >= old(audio.captured)
      ensures audio.open == old(audio.open)
      ensures idle ==> audio.queue == old(audio.queue)
      ensures old(hushes) <= hushes
      ensures !audio.accepting ==> hushes == old(hushes) + [Hush(old(audio.captured), audio.captured)]
    {
      hide Unheard, LocalAudioInput.Valid, LiveKitWakeWordDetector.Valid;
      Pass(idle);
      if !audio.accepting {
        UnheardAppend(heard, hushes, Hush(old(audio.captured), audio.captured));
        hushes := hushes + [Hush(old(audio.captured), audio.captured)];
      }
      var passed: real := *;
      if passed > 0.0 { now := now + passed; }
    }

    /** The microphone's thread and its calls, for a while. */
    method Pass(idle: bool)
      requires audio.Valid()
      modifies audio
      ensures audio.Valid() && audio.accepting == old(audio.accepting) && audio.open == old(audio.open)
      ensures audio.discardedAt == old(audio.discardedAt) && audio.captured >= old(audio.captured)
      ensures idle ==> audio.queue == old(audio.queue)
    {
      hide IntakeOk;
      assert Happenings([]);
      var ops: seq<Op> :| Happenings(ops);
      if idle { ops := []; }
      audio.Elapse(ops);
    }

    /** A read of the microphone, which is open: a frame, a timeout once `wait` is over, or a fatal error. */
    method ReadFrame(wait: real, idle: bool) returns (fatal: bool, r: Option<Chunk>)
      requires Valid() && audio.accepting && state !in {Processing, Speaking}
      modifies this`now, this`hushes, this`heard, this`faults, audio
      ensures faults == old(faults) + if fatal then 1 else 0
      ensures Valid() && now >= old(now) && audio.accepting
      ensures heard == old(heard) + if r.Some? then [r.value] else []
      ensures r.Some? ==> !fatal && forall k :: 0 <= k < |hushes| ==> r.value.serial >= hushes[k].to
      ensures r.None? && !fatal ==> now >= old(now) + wait
      ensures idle ==> |audio.queue| == |old(audio.queue)| - if r.Some? then 1 else 0
    {
      hide IntakeOk;
      var over := now + wait;
      Await(idle);
      fatal, r := false, None;
      if audio.queue == [] && now < over { now := over; }
      var active: bool := *;
      var result := audio.ReadQueue(active, now);
      match result
      case Frame(chunk) =>
        r := Some(chunk);
        heard := heard + [chunk];
      case TimedOut =>
      case Inactive =>
        fatal := true;
        faults := faults + 1;
    }

    // ---- The gate

    method CloseGate()
      requires Valid()
      modifies audio
      ensures Valid() && !audio.accepting && audio.captured == old(audio.captured)
    {
      hide IntakeOk;
      audio.SetGate(false);
      audio.DiscardPending();
    }

    method DiscardFrames()
      requires Valid()
      modifies audio
      ensures Valid() && audio.discardedAt == audio.captured == old(audio.captured)
      ensures audio.accepting == old(audio.accepting)
    {
      hide IntakeOk;
      audio.DiscardPending();
    }

    /** Right after a discard. */
    method Accept()
      requires Valid() && audio.discardedAt == audio.captured
      modifies audio
      ensures Valid() && audio.accepting && audio.captured == old(audio.captured)
    {
      hide IntakeOk;
      audio.SetGate(true);
    }

    method OpenGate()
      requires Valid()
      modifies audio
      ensures Valid() && audio.accepting && audio.captured == old(audio.captured)
    {
      hide IntakeOk, Unheard, LocalAudioInput.Valid, LiveKitWakeWordDetector.Valid;
      DiscardFrames();
      Accept();
    }

    method EnterWaitingWake()
      requires Valid()
      modifies this`state, this`followupDeadline, audio, wakeword
      ensures Idle() && state == WaitingWake && wakeword.heard == []
    {
      hide IntakeOk, Recorded, Unheard;
      followupDeadline := None;
      OpenGate();
      wakeword.Reset();
      state := WaitingWake;
    }

    /** An effect or a speech; `fatal` is an error of the speaker, or a cancellation. */
    method Play() returns (fatal: bool)
      requires Valid() && !audio.accepting
      modifies this`now, this`hushes, this`faults, audio
      ensures Valid() && !audio.accepting && now >= old(now)
      ensures faults == old(faults) + if fatal then 1 else 0
    {
      hide IntakeOk, Recorded, Unheard;
      Await(false);
      fatal := *;
      faults := faults + if fatal then 1 else 0;
    }

    method PlayErrorEffect() returns (fatal: bool)
      requires Valid()
      modifies this`now, this`hushes, this`faults, audio
      ensures Valid() && !audio.accepting && now >= old(now)
      ensures faults == old(faults) + if fatal then 1 else 0
    {
      hide IntakeOk, Recorded, Unheard, LocalAudioInput.Valid;
      CloseGate();
      fatal := Play();
      if fatal { return; }
      DiscardFrames();
    }

    method StartMicrophone(opens: bool) returns (ok: bool)
      requires Valid()
      modifies audio
      ensures Valid()
    {
      hide IntakeOk, Recorded, Unheard;
      RunOfTwo(audio.capacity, audio.View(), Discard, SetAccepting(true));
      ok := audio.Start(opens, now);
    }

    /** Starts the detector, the microphone and the speaker. */
    method StartComponents(loads: bool, opens: bool) returns (fatal: bool)
      requires Valid() && state !in {Processing, Speaking}
      modifies this`state, this`followupDeadline, this`now, this`hushes, this`faults, audio, wakeword
      ensures faults == old(faults) + if fatal then 1 else 0
      ensures Valid() && now >= old(now)
      ensures !fatal ==> Idle() && state == WaitingWake
    {
      hide IntakeOk, Recorded, Unheard, Listen;
      Await(false);
      var ok := wakeword.Start(loads);
      if !ok {
        faults := faults + 1;
        return true;
      }
      Await(false);
      ok := StartMicrophone(opens);
      if !ok {
        faults := faults + 1;
        return true;
      }
      Await(false);
      fatal := *;
      if fatal {
        faults := faults + 1;
        return;
      }
      DiscardFrames();
      EnterWaitingWake();
    }

    // ---- The ends of a turn

    method ReturnAfterEmptyRecording(trigger: Trigger, original: Option<real>)
      requires Valid() && audio.accepting
      requires followupDeadline == original
      modifies this`state, this`followupDeadline, audio, wakeword
      ensures Idle()
      ensures if trigger == ByFollowup && original.Some? && now < original.value
              then state == WaitingFollowup && followupDeadline == original
              else state == WaitingWake
    {
      hide IntakeOk, Recorded, Unheard;
      if trigger == ByFollowup && original.Some? && now < original.value {
        state := WaitingFollowup;
        return;
      }
      EnterWaitingWake();
    }

    method RecoverEmptyTranscript(original: Option<real>) returns (fatal: bool)
      requires Valid() && !audio.accepting
      requires followupDeadline == original
      modifies this`state, this`followupDeadline, this`now, this`hushes, this`faults, audio, wakeword
      ensures faults == old(faults) + if fatal then 1 else 0
      ensures Valid() && now >= old(now)
      ensures !fatal ==> Idle()
      ensures !fatal && original.Some? && now < original.value ==>
        state == WaitingFollowup && followupDeadline == original
      ensures !fatal && (original.None? || now >= original.value) ==> state == WaitingWake
    {
      hide IntakeOk, Recorded, Unheard;
      fatal := PlayErrorEffect();
      if fatal { return; }
      OpenGate();
      if original.Some? && now < original.value {
        state := WaitingFollowup;
      } else {
        EnterWaitingWake();
      }
    }

    method RecoverTurnError() returns (fatal: bool)
      requires Valid() && !audio.accepting
      modifies this`state, this`followupDeadline, this`now, this`hushes, this`faults, audio, wakeword
      ensures faults == old(faults) + if fatal then 1 else 0
      ensures Valid() && now >= old(now)
      ensures !fatal ==> Idle() && state == WaitingWake
    {
      hide IntakeOk, Recorded, Unheard;
      fatal := PlayErrorEffect();
      if fatal { return; }
      EnterWaitingWake();
    }

    method AfterSuccessfulPlayback(waitForFollowup: bool)
      requires Valid() && state == Speaking && !audio.accepting
      modifies this`state, this`followupDeadline, this`now, this`hushes, this`openings, audio, wakeword
      ensures Idle() && now >= old(now)
      ensures if settings.followupEnabled && waitForFollowup
              then state == WaitingFollowup && followupDeadline == Some(now + settings.followupTimeout)
                   && openings == old(openings) + 1
              else state == WaitingWake && openings == old(openings)
    {
      hide IntakeOk, Recorded, Unheard, LocalAudioInput.Valid, LiveKitWakeWordDetector.Valid;
      CloseGate();
      Await(false);
      DiscardFrames();
      if settings.followupEnabled && waitForFollowup {
        Accept();
        followupDeadline := Some(now + settings.followupTimeout);
        openings := openings + 1;
        state := WaitingFollowup;
        return;
      }
      EnterWaitingWake();
    }

    // ---- A turn

    /**
     * The recorder, fed by reads of the microphone with the timeouts it asks for. `busy` is the number of
     * awaits in which the microphone does something.
     */
    method Record(job: Job, busy: nat) returns (fatal: bool, r: Recording)
      requires Valid() && audio.accepting && state == InRecording
      modifies this`now, this`hushes, this`heard, this`faults, audio
      ensures faults == old(faults) + if fatal then 1 else 0
      ensures Valid() && audio.accepting && now >= old(now)
      ensures !fatal ==> r != Unfinished && (r == NoSpeech ==> now >= job.deadline)
      ensures !fatal ==> Took(recorder.q, job, r, old(heard), heard)
    {
      hide IntakeOk, Recorded, Unheard, Patience, LocalAudioInput.Valid, LiveKitWakeWordDetector.Valid;
      var x := Session([], [now], now, false);
      var waits;
      NoSpeechIsLate(recorder.q, job, x, now);
      r, waits := recorder.Record(job, x);
      fatal := false;
      var left: nat := busy;
      while r == Unfinished
        invariant Valid() && audio.accepting && now >= old(now) && !fatal && faults == old(faults)
        invariant ValidSession(x) && r == Recorded(recorder.q, job, x) && heard == old(heard) + x.chunks
        invariant forall i :: 0 <= i < |x.clock| ==> x.clock[i] <= now
        invariant r == Unfinished ==>
          !x.timesOut && x.clock[|x.chunks|] == now && waits != []
          && waits[|waits| - 1] == Patience(recorder.q, job, x, |x.chunks|)
        invariant r == NoSpeech ==> now >= job.deadline
        decreases left, |audio.queue|, if r == Unfinished then 1 else 0
      {
        ghost var before := now;
        var chunk;
        fatal, chunk := ReadFrame(waits[|waits| - 1], left == 0);
        if fatal { return; }
        if left > 0 { left := left - 1; }
        if chunk.Some? {
          var started := StartIndex(recorder.q, job, x, 0) < |x.chunks|;
          x := Session(x.chunks + [chunk.value], x.clock + [now], if started then x.startedAt else now, false);
        } else {
          SilenceIsLate(recorder.q, job, x, now);
          x := x.(timesOut := true);
          TimeoutFinishes(recorder.q, job, x);
        }
        NoSpeechIsLate(recorder.q, job, x, now);
        r, waits := recorder.Record(job, x);
      }
    }

    /**
     * A turn. It breaks off only when something outside fails for good; otherwise what was said and what the
     * services answered tell its outcome, and the outcome tells where it ends.
     */
    method RunTurn(trigger: Trigger, initial: seq<Chunk>, streak: nat, original: Option<real>, outside: Outside)
        returns (fatal: bool)
      requires Idle() && followupDeadline == original
      requires trigger == ByFollowup <==> state == WaitingFollowup
      modifies this`state, this`followupDeadline, this`now, this`hushes, this`heard, this`openings, this`turns,
               this`faults, audio, wakeword
      ensures Valid() && now >= old(now) && faults >= old(faults)
      ensures fatal <==> faults > old(faults)
      ensures fatal ==> turns == old(turns) && openings == old(openings)
      ensures !fatal ==>
        var n := |old(turns)|;
        && |turns| == n + 1 && turns[..n] == old(turns)
        && Idle() && Concluded(turns[n], original, old(openings))
        && turns[n].trigger == trigger && turns[n].outside == outside && old(now) <= turns[n].startedAt <= now
        && turns[n].job == Job(if trigger == ByFollowup then original.value else turns[n].startedAt + settings.startTimeout,
                               initial, streak)
        && Took(recorder.q, turns[n].job, turns[n].recording, old(heard), heard)
    {
      hide IntakeOk, Recorded, Unheard, LocalAudioInput.Valid, LiveKitWakeWordDetector.Valid, Took, Concluded;
      state := InRecording;
      if trigger == ByWakeWord {
        fatal := Acknowledge();
        if fatal { return; }
      }
      var startedAt := now;
      var deadline := if trigger == ByFollowup then original else Some(now + settings.startTimeout);
      if deadline.None? {
        assert false;   // followup_deadline_missing
      }
      var busy: nat :| true;
      var utterance;
      fatal, utterance := Record(Job(deadline.value, initial, streak), busy);
      if fatal { return; }
      var turn := Turn(trigger, startedAt, Job(deadline.value, initial, streak), utterance, outside);
      fatal := FinishTurn(original, outside, turn);
      if !fatal { turns := turns + [turn]; }
    }

    /** A turn from the end of its recording on. */
    method FinishTurn(original: Option<real>, outside: Outside, turn: Turn) returns (fatal: bool)
      requires Valid() && audio.accepting && state == InRecording && followupDeadline == original
      requires turn.outside == outside && (turn.trigger == ByFollowup <==> original.Some?)
      modifies this`state, this`followupDeadline, this`now, this`hushes, this`openings, this`faults, audio, wakeword
      ensures Valid() && now >= old(now) && faults >= old(faults)
      ensures fatal <==> faults > old(faults)
      ensures fatal ==> openings == old(openings)
      ensures !fatal ==> Idle() && Concluded(turn, original, old(openings))
    {
      hide IntakeOk, Recorded, Unheard, LocalAudioInput.Valid, LiveKitWakeWordDetector.Valid;
      if !turn.recording.Utterance? {
        ReturnAfterEmptyRecording(turn.trigger, original);
        return false;
      }
      hide Concluded;
      CloseGate();
      state := Processing;
      fatal := Respond(original, outside, turn);
    }

    /** The sound that answers the wake word, with the microphone closed until it is over. */
    method Acknowledge() returns (fatal: bool)
      requires Valid()
      modifies this`now, this`hushes, this`faults, audio
      ensures Valid() && now >= old(now)
      ensures faults == old(faults) + if fatal then 1 else 0
      ensures !fatal ==> audio.accepting
    {
      hide IntakeOk, Recorded, Unheard, LocalAudioInput.Valid, LiveKitWakeWordDetector.Valid;
      CloseGate();
      fatal := Play();
      if fatal { return; }
      OpenGate();
    }

    /** A turn from its transcription on. */
    method Respond(original: Option<real>, outside: Outside, ghost turn: Turn) returns (fatal: bool)
      requires Valid() && state == Processing && !audio.accepting && followupDeadline == original
      requires turn.recording.Utterance? && turn.outside == outside
      modifies this`state, this`followupDeadline, this`now, this`hushes, this`openings, this`faults, audio, wakeword
      ensures Valid() && now >= old(now) && faults >= old(faults)
      ensures fatal <==> faults > old(faults)
      ensures fatal ==> openings == old(openings)
      ensures !fatal ==> Idle() && Concluded(turn, original, old(openings))
    {
      hide IntakeOk, Recorded, Unheard, LocalAudioInput.Valid, LiveKitWakeWordDetector.Valid;
      Await(false);                       // transcribe
      if outside.transcript == FatalError {
        faults := faults + 1;
        return true;
      }
      if outside.transcript == TurnError {
        fatal := RecoverTurnError();
        return;
      }
      if !outside.understood {
        fatal := RecoverEmptyTranscript(original);
        return;
      }
      Await(false);                       // reply
      if outside.reply == FatalError {
        faults := faults + 1;
        return true;
      }
      if outside.reply == TurnError {
        fatal := RecoverTurnError();
        return;
      }
      state := Speaking;
      Await(false);
      if outside.speech == FatalError {
        faults := faults + 1;
        return true;
      }
      if outside.speech == TurnError {
        fatal := RecoverTurnError();
        return;
      }
      AfterSuccessfulPlayback(outside.asksFollowup);
      fatal := false;
    }

    // ---- The main loop

    /** A loud frame within the window, with the frames before it; None once the window is over. */
    method WaitForFollowupCandidate(busy: nat) returns (fatal: bool, r: Option<seq<Chunk>>)
      requires Idle() && state == WaitingFollowup
      modifies this`now, this`hushes, this`heard, this`faults, audio
      ensures faults == old(faults) + if fatal then 1 else 0
      ensures Idle() && now >= old(now)
      ensures r.Some? ==> old(now) < followupDeadline.value
      ensures r.None? && !fatal ==> now >= followupDeadline.value
      ensures r.Some? ==> r.value != [] && r.value[|r.value| - 1].above && |r.value| <= settings.followupPrerollFrames
      ensures old(heard) <= heard
      ensures forall i :: |old(heard)| <= i < |heard| - (if r.Some? then 1 else 0) ==> !heard[i].above
      ensures r.Some? ==> r.value == LastOf(settings.followupPrerollFrames, heard[|old(heard)|..])
    {
      hide IntakeOk, Recorded, Unheard, LocalAudioInput.Valid, LiveKitWakeWordDetector.Valid;
      fatal, r := false, None;
      if followupDeadline.None? {
        assert false;   // followup_deadline_missing
      }
      var preroll: seq<Chunk> := [];
      ghost var quiet: seq<Chunk> := [];
      var left: nat := busy;
      while true
        invariant Idle() && state == WaitingFollowup && now >= old(now) && faults == old(faults)
        invariant preroll == LastOf(settings.followupPrerollFrames, quiet) && heard == old(heard) + quiet
        invariant forall i :: 0 <= i < |quiet| ==> !quiet[i].above
        invariant quiet != [] ==> old(now) < followupDeadline.value
        decreases left, |audio.queue|
      {
        var remaining := followupDeadline.value - now;
        if remaining <= 0.0 { return false, None; }
        var chunk;
        fatal, chunk := ReadFrame(remaining, left == 0);
        if fatal || chunk.None? { return fatal, None; }
        if left > 0 { left := left - 1; }
        LastOfExtends(settings.followupPrerollFrames, quiet, chunk.value);
        preroll := LastOf(settings.followupPrerollFrames, preroll + [chunk.value]);
        quiet := quiet + [chunk.value];
        assert LastOf(settings.followupPrerollFrames, quiet) == preroll && heard == old(heard) + quiet;
        if chunk.value.above { return false, Some(preroll); }
      }
    }

    /** A window, as long as every turn comes to nothing: open until its deadline, and over from then on. */
    ghost predicate WindowStays(original: Option<real>)
      reads this
    {
      if original.Some? && now < original.value then state == WaitingFollowup && followupDeadline == original
      else state == WaitingWake
    }

    /**
     * One pass of the main loop. Waiting for the wake word, it runs a turn exactly when the frame read makes
     * the detector fire; in a follow-up window, exactly when a loud frame comes before the window is over.
     * `window` is the one in effect or the last one that came to nothing.
     */
    method RunOnce(outside: Outside, ghost window: Option<real>) returns (fatal: bool)
      requires Idle()
      requires forall c :: |sound(c)| == FRAME_BYTES
      modifies this`state, this`followupDeadline, this`now, this`hushes, this`heard, this`openings, this`turns,
               this`faults, audio, wakeword
      ensures Valid() && now >= old(now) && openings >= old(openings) && faults >= old(faults)
      ensures fatal <==> faults > old(faults)
      ensures !fatal ==> Idle() && old(turns) <= turns && |turns| <= |old(turns)| + 1
      ensures !fatal && |turns| > |old(turns)| ==>
        Concluded(turns[|old(turns)|], old(followupDeadline), old(openings)) && turns[|old(turns)|].outside == outside
      ensures !fatal && |turns| == |old(turns)| ==> state == WaitingWake && openings == old(openings)
      ensures !fatal && openings == old(openings) ==> followupDeadline in {None, old(followupDeadline)}
      ensures !fatal && (forall i :: |old(turns)| <= i < |turns| ==> CameToNothing(turns[i]))
              && (if old(state) == WaitingFollowup then window == old(followupDeadline)
                  else window.Some? ==> old(now) >= window.value) ==>
        WindowStays(window)
      ensures !fatal && old(state) == WaitingWake ==> AfterListening(|old(turns)|, old(heard), old(wakeword.heard), old(now))
      ensures !fatal && old(state) == WaitingFollowup ==> AfterWindow(|old(turns)|, old(followupDeadline).value, old(now))
    {
      hide IntakeOk, Recorded, Unheard, Hear, Fires, LocalAudioInput.Valid, LiveKitWakeWordDetector.Valid;
      if state == WaitingWake {
        fatal := AwaitWakeWord(outside);
      } else if state == WaitingFollowup {
        fatal := AwaitFollowup(outside);
      } else {
        assert false;   // voice_state_invalid
      }
    }

    /** A turn has run exactly if the frame that was read made the detector fire. */
    ghost predicate AfterListening(n: nat, before: seq<Chunk>, listened: seq<Pcm>, since: real)
      reads this, wakeword
    {
      && |before| <= |heard|
      && (|heard| == |before| ==> now >= since + 1.0 && |turns| == n)
      && (|heard| > |before| ==>
            (|turns| > n <==> Fires(wakeword.k, wakeword.model, listened + [sound(heard[|before|])])))
      && (|turns| > n ==> turns[n].trigger == ByWakeWord)
    }

    /** A turn has run exactly if a loud frame came in time; it starts with the frames that led to it. */
    ghost predicate AfterWindow(n: nat, deadline: real, since: real)
      reads this
    {
      if |turns| <= n then now >= deadline
      else
        var job := turns[n].job;
        && turns[n].trigger == ByFollowup && job.deadline == deadline && job.streak == 1 && since < deadline
        && job.initial != [] && job.initial[|job.initial| - 1].above
    }

    method AwaitWakeWord(outside: Outside) returns (fatal: bool)
      requires Idle() && state == WaitingWake
      requires forall c :: |sound(c)| == FRAME_BYTES
      modifies this`state, this`followupDeadline, this`now, this`hushes, this`heard, this`openings, this`turns,
               this`faults, audio, wakeword
      ensures Valid() && now >= old(now) && openings >= old(openings) && faults >= old(faults)
      ensures fatal <==> faults > old(faults)
      ensures !fatal ==> Idle() && old(turns) <= turns && |turns| <= |old(turns)| + 1
      ensures !fatal && |turns| > |old(turns)| ==>
        Concluded(turns[|old(turns)|], None, old(openings)) && turns[|old(turns)|].outside == outside
      ensures !fatal && |turns| == |old(turns)| ==> state == WaitingWake && openings == old(openings)
      ensures !fatal ==> AfterListening(|old(turns)|, old(heard), old(wakeword.heard), old(now))
    {
      hide IntakeOk, Recorded, Unheard, Hear, Fires, LocalAudioInput.Valid;
      var chunk;
      fatal, chunk := ReadFrame(1.0, false);
      if fatal || chunk.None? { return; }
      var answer := wakeword.Detect(sound(chunk.value));
      if answer !in {Heard, NotHeard} {
        faults := faults + 1;
        return true;
      }
      Await(false);
      if answer == Heard { fatal := RunTurn(ByWakeWord, [], 0, None, outside); }
    }

    method AwaitFollowup(outside: Outside) returns (fatal: bool)
      requires Idle() && state == WaitingFollowup
      modifies this`state, this`followupDeadline, this`now, this`hushes, this`heard, this`openings, this`turns,
               this`faults, audio, wakeword
      ensures Valid() && now >= old(now) && openings >= old(openings) && faults >= old(faults)
      ensures fatal <==> faults > old(faults)
      ensures !fatal ==> Idle() && old(turns) <= turns && |turns| <= |old(turns)| + 1
      ensures !fatal && |turns| > |old(turns)| ==>
        Concluded(turns[|old(turns)|], old(followupDeadline), old(openings)) && turns[|old(turns)|].outside == outside
      ensures !fatal && |turns| == |old(turns)| ==> state == WaitingWake && openings == old(openings)
      ensures !fatal ==> AfterWindow(|old(turns)|, old(followupDeadline).value, old(now))
    {
      hide IntakeOk, Recorded, Unheard, LocalAudioInput.Valid, LiveKitWakeWordDetector.Valid;
      var busy: nat :| true;
      var candidate;
      fatal, candidate := WaitForFollowupCandidate(busy);
      if fatal { return; }
      if candidate.None? {
        EnterWaitingWake();
      } else {
        fatal := RunTurn(ByFollowup, candidate.value, 1, followupDeadline, outside);
      }
    }

    /**
     * Any number of passes: the deadline moves only when a reply has been played to its end, and through any
     * number of turns that come to nothing the window stays open, unchanged, exactly until its deadline.
     */
    method RunLoop(passes: nat, outside: nat -> Outside) returns (fatal: bool)
      requires Idle()
      requires forall c :: |sound(c)| == FRAME_BYTES
      modifies this`state, this`followupDeadline, this`now, this`hushes, this`heard, this`openings, this`turns,
               this`faults, audio, wakeword
      ensures Valid() && now >= old(now) && faults >= old(faults)
      ensures fatal <==> faults > old(faults)
      ensures !fatal ==> Idle() && old(turns) <= turns
      ensures !fatal && openings == old(openings) ==> followupDeadline in {None, old(followupDeadline)}
      ensures !fatal && passes > 0 && (forall i :: |old(turns)| <= i < |turns| ==> CameToNothing(turns[i])) ==>
        WindowStays(old(followupDeadline))
    {
      hide CameToNothing, Concluded, IntakeOk, Recorded, Unheard, LocalAudioInput.Valid, LiveKitWakeWordDetector.Valid;
      fatal := false;
      for i := 0 to passes
        invariant Valid() && (!fatal ==> Idle()) && openings >= old(openings) && now >= old(now)
        invariant faults >= old(faults) && (fatal <==> faults > old(faults))
        invariant !fatal ==> old(turns) <= turns
        invariant !fatal && openings == old(openings) ==> followupDeadline in {None, old(followupDeadline)}
        invariant !fatal && (forall k :: |old(turns)| <= k < |turns| ==> CameToNothing(turns[k])) ==>
          if i == 0 then state == old(state) && followupDeadline == old(followupDeadline)
          else WindowStays(old(followupDeadline))
      {
        if !fatal {
          ghost var before := turns;
          fatal := RunOnce(outside(i), old(followupDeadline));
          assert !fatal ==> forall k :: 0 <= k < |before| ==> before[k] == turns[k];
        }
      }
    }

    // ---- Lifetime

    /** _cleanup_started_resources: the microphone first, and its gate before anything else. */
    method Cleanup()
      requires Valid()
      modifies this`now, this`hushes, audio, wakeword
      ensures Valid() && !audio.accepting && !audio.open && now >= old(now)
    {
      hide IntakeOk, Recorded, Unheard, Listen;
      StopMicrophone();
      Await(false);
      wakeword.Stop();
    }

    method StopMicrophone()
      requires Valid()
      modifies audio
      ensures Valid() && !audio.accepting && !audio.open
    {
      hide IntakeOk, Recorded, Unheard;
      RunOfTwo(audio.capacity, audio.View(), SetAccepting(false), Discard);
      audio.Stop();
    }

    /** stop(), at any suspension of a turn: the gate falls, the turn is gone, everything is let go. */
    method Stop()
      requires Valid()
      modifies this`state, this`followupDeadline, this`now, this`hushes, audio, wakeword
      ensures Valid() && !audio.accepting && state == Disabled && followupDeadline.None? && now >= old(now)
    {
      hide IntakeOk, Recorded, Unheard, Listen, LocalAudioInput.Valid, LiveKitWakeWordDetector.Valid;
      CloseGate();
      Await(false);
      Cleanup();
      followupDeadline := None;
      state := Disabled;
    }

    /**
     * The supervisor: components are started, the main loop runs until a fatal error or a cancellation, and
     * a device that is gone is tried again. Through all of it nothing is heard that was captured while the
     * microphone was closed.
     */
    method Supervise(lives: nat, passes: nat, outside: (nat, nat) -> Outside)
      requires Valid() && state !in {Processing, Speaking}
      requires forall c :: |sound(c)| == FRAME_BYTES
      modifies this`state, this`followupDeadline, this`now, this`hushes, this`heard, this`openings, this`turns,
               this`faults, audio, wakeword
      ensures Valid() && now >= old(now)
    {
      hide IntakeOk, Recorded, Unheard, Listen;
      for life := 0 to lives
        invariant Valid() && now >= old(now) && state !in {Processing, Speaking}
      {
        Await(false);
        var loads: bool, opens: bool := *, *;
        var fatal := StartComponents(loads, opens);
        if !fatal {
          var number: nat := life;
          fatal := RunLoop(passes, (i: nat) => outside(number, i));
        }
        if !fatal { return; }
        Cleanup();
        state := VoiceState.Failed;
        var recoverable: bool := *;
        if !recoverable { return; }
      }
    }
  }

  /** A timeout before the start comes at the deadline. */
  lemma SilenceIsLate(q: RecorderSettings, j: Job, x: Session, now: real)
    requires ValidSession(x) && now >= x.clock[|x.chunks|] + Patience(q, j, x, |x.chunks|)
    ensures StartIndex(q, j, x, 0) == |x.chunks| ==> now >= j.deadline
  {
  }

  lemma NoSpeechIsLate(q: RecorderSettings, j: Job, x: Session, now: real)
    requires ValidSession(x) && forall i :: 0 <= i < |x.clock| ==> x.clock[i] <= now
    requires x.timesOut && StartIndex(q, j, x.(timesOut := false), 0) == |x.chunks| ==> now >= j.deadline
    ensures Recorded(q, j, x) == NoSpeech ==> now >= j.deadline
  {
    StartIgnoresTimeout(q, j, x, 0);
    hide RecordedFrom;
  }

  lemma StartIgnoresTimeout(q: RecorderSettings, j: Job, x: Session, i: nat)
    requires ValidSession(x) && i <= |x.chunks|
    ensures StartIndex(q, j, x.(timesOut := false), i) == StartIndex(q, j, x, i)
    decreases |x.chunks| - i
  {
  }
}
