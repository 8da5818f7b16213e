/**
 * The voice-call controller of components/LiveMode.tsx: its state, the
 * session lifecycle callbacks, the microphone frame handler, downlink
 * playback scheduling with barge-in, and teardown.
 *
 * Each handler runs atomically. Device time is a parameter, audio sources
 * are ids, and calls into the transport and Web Audio appear as results or
 * as ghost records of what was started and stopped.
 */
module LiveMode {
  import opened Wrappers
  import opened Audio
  import opened Base64

  datatype Status = Idle | Connecting | Connected | Error

  /**
   * What handleServerMessage reads of a LiveServerMessage: the inline audio
   * data of the first part of the model turn, if any, and the interrupted flag.
   */
  datatype ServerMessage = ServerMessage(audio: Option<string>, interrupted: bool)

  type SourceId = nat

  /** An AudioBufferSourceNode started on the output context. */
  datatype Segment = Segment(source: SourceId, start: real, duration: real)
  {
    function End(): real {
      start + duration
    }
  }

  function Max(a: real, b: real): real {
    if a >= b then a else b
  }

  /** Segments in start order, none overlapping the one after it. */
  ghost predicate Sequential(turn: seq<Segment>) {
    (forall i :: 0 <= i < |turn| ==> turn[i].duration >= 0.0) &&
    (forall i :: 0 <= i < |turn| - 1 ==> turn[i].End() <= turn[i + 1].start)
  }

  /** The condition under which handleServerMessage plays a message's audio. */
  predicate Playable(msg: ServerMessage, outputContext: bool, outputNode: bool) {
    msg.audio.Some? && msg.audio.value != "" && outputContext && outputNode
  }

  ghost predicate ScheduledState(sources: set<SourceId>, created: nat, turn: seq<Segment>, cursor: real) {
    (forall id :: id in sources ==> id < created) &&
    Sequential(turn) &&
    (turn != [] ==> turn[|turn| - 1].End() <= cursor)
  }

  ghost predicate ValidState(sources: set<SourceId>, created: nat, turn: seq<Segment>, cursor: real, speaking: bool) {
    ScheduledState(sources, created, turn, cursor) &&
    (speaking <==> sources != {})
  }

  class LiveSession {
    var status: Status
    var isConnected: bool
    /** The model is speaking. */
    var isSpeaking: bool
    var micActive: bool

    // The refs: true where the source's ref holds an object, false where it is null.
    var inputContext: bool
    var outputContext: bool
    var outputNode: bool
    var inputStream: bool
    var processor: bool
    var session: bool

    /** micActive as seen by the render whose startSession opened the current session. */
    var startMicActive: bool
    /** micActive as the installed frame handler sees it. */
    var processorMicActive: bool

    /** nextStartTimeRef: the earliest time the next downlink segment may start. */
    var nextStartTime: real
    /** audioSourcesRef: the sources started and not yet ended or stopped. */
    var sources: set<SourceId>
    /** Sources created so far; createBufferSource hands out the next id. */
    var sourcesCreated: nat

    /** Segments started since the last flush of playback. */
    ghost var turn: seq<Segment>
    /** Sources on which stop() has been called. */
    ghost var stopped: set<SourceId>

    /** What every handler relies on and keeps about playback scheduling. */
    ghost predicate Scheduled()
      reads this`sources, this`sourcesCreated, this`turn, this`nextStartTime
    {
      ScheduledState(sources, sourcesCreated, turn, nextStartTime)
    }

    ghost predicate Valid()
      reads this`sources, this`sourcesCreated, this`turn, this`nextStartTime, this`isSpeaking
    {
      ValidState(sources, sourcesCreated, turn, nextStartTime, isSpeaking)
    }

    /** What cleanup guarantees: nothing connected, speaking, playing or held open. */
    ghost predicate Released()
      reads this`isConnected, this`status, this`isSpeaking, this`sources
      reads this`inputContext, this`outputContext, this`inputStream, this`processor
    {
      !isConnected && status == Idle && !isSpeaking && sources == {} &&
      !inputContext && !outputContext && !inputStream && !processor
    }

    constructor ()
      ensures Valid() && Released()
      ensures micActive && !outputNode && !session
      ensures nextStartTime == 0.0 && turn == [] && stopped == {}
    {
      status, isConnected, isSpeaking, micActive := Idle, false, false, true;
      inputContext, outputContext, outputNode := false, false, false;
      inputStream, processor, session := false, false, false;
      startMicActive, processorMicActive := true, true;
      nextStartTime, sources, sourcesCreated := 0.0, {}, 0;
      turn, stopped := [], {};
    }

    /**
     * startSession: status connecting, both audio contexts and the output
     * node created, then the microphone requested. If that is refused the
     * status ends as error and nothing created so far is released;
     * otherwise the remote session is opened.
     */
    method StartSession(micGranted: bool)
      modifies this`status, this`startMicActive, this`outputContext, this`outputNode, this`inputContext
      modifies this`inputStream, this`session
      ensures outputContext && outputNode && inputContext
      ensures startMicActive == micActive
      ensures micGranted ==> status == Connecting && inputStream && session
      ensures !micGranted ==> status == Error && inputStream == old(inputStream) && session == old(session)
    {
      status := Connecting;
      startMicActive := micActive;
      outputContext := true;
      outputNode := true;
      inputContext := true;
      if micGranted {
        inputStream := true;
        session := true;
      } else {
        status := Error;
      }
    }

    /** onopen: connected, and the microphone wired to the frame handler. */
    method OnOpen()
      modifies this`isConnected, this`status, this`processor, this`processorMicActive
      ensures isConnected && status == Connected
      ensures processor == (old(processor) || (old(inputContext) && old(inputStream)))
      ensures processorMicActive == if old(inputContext) && old(inputStream) then old(startMicActive) else old(processorMicActive)
    {
      isConnected := true;
      status := Connected;
      SetupAudioInput();
    }

    /**
     * setupAudioInput: nothing without an input context and stream;
     * otherwise a script processor whose frame handler closes over the
     * micActive of the session's starting render.
     */
    method SetupAudioInput()
      modifies this`processor, this`processorMicActive
      ensures processor == (old(processor) || (inputContext && inputStream))
      ensures processorMicActive == if inputContext && inputStream then startMicActive else old(processorMicActive)
    {
      if !inputContext || !inputStream {
        return;
      }
      processor := true;
      processorMicActive := startMicActive;
    }

    /**
     * The frame handler as written: it drops the frame when the micActive
     * it closed over is false, and otherwise sends exactly one blob, the
     * PCM encoding of the frame. Toggling the microphone afterwards does not
     * reach it.
     */
    method OnAudioProcessAsWritten(frame: seq<real>) returns (sent: Option<Blob>)
      requires processor
      ensures sent == if processorMicActive then Some(CreatePcmBlob(frame)) else None
    {
      if !processorMicActive {
        return None;
      }
      sent := Some(CreatePcmBlob(frame));
    }

    /** The frame handler reading the current mute flag: a frame is sent exactly when the microphone is on. */
    method OnAudioProcess(frame: seq<real>) returns (sent: Option<Blob>)
      requires processor
      ensures sent == if micActive then Some(CreatePcmBlob(frame)) else None
    {
      if !micActive {
        return None;
      }
      sent := Some(CreatePcmBlob(frame));
    }

    /** toggleMic: flips the mute flag and nothing else. */
    method ToggleMic()
      modifies this`micActive
      ensures micActive == !old(micActive)
    {
      micActive := !micActive;
    }

    /** Starts a fresh source at the cursor and moves the cursor to its end. */
    method StartSource(duration: real) returns (seg: Segment)
      requires Scheduled()
      requires duration >= 0.0
      requires turn != [] ==> turn[|turn| - 1].End() <= nextStartTime
      modifies this`nextStartTime, this`sources, this`sourcesCreated, this`turn
      ensures Scheduled()
      ensures seg == Segment(old(sourcesCreated), old(nextStartTime), duration)
      ensures seg.source !in old(sources)
      ensures nextStartTime == seg.End()
      ensures sources == old(sources) + {seg.source}
      ensures turn == old(turn) + [seg]
      ensures sourcesCreated == old(sourcesCreated) + 1
    {
      seg := Segment(sourcesCreated, nextStartTime, duration);
      sourcesCreated := sourcesCreated + 1;
      turn := turn + [seg];
      nextStartTime := nextStartTime + duration;
      sources := sources + {seg.source};
    }

    /** The interruption branch: stop and forget every source, reset the cursor, stop speaking. */
    method FlushPlayback()
      requires Scheduled()
      modifies this`sources, this`nextStartTime, this`isSpeaking, this`turn, this`stopped
      ensures Valid()
      ensures sources == {} && !isSpeaking && nextStartTime == 0.0 && turn == []
      ensures stopped == old(stopped) + old(sources)
    {
      stopped := stopped + sources;
      sources := {};
      nextStartTime := 0.0;
      isSpeaking := false;
      turn := [];
    }

    /**
     * handleServerMessage as written: speaking is set and the cursor synced
     * before the audio is decoded, and a decode that throws leaves the
     * handler there, skipping the interruption branch. From a silent state a
     * malformed payload therefore leaves isSpeaking true with no source.
     * A payload that decodes is played as by HandleServerMessage, and then
     * the session is consistent again whenever it was before.
     */
    method HandleServerMessageAsWritten(msg: ServerMessage, now: real) returns (started: Option<Segment>)
      requires Scheduled()
      modifies this`isSpeaking, this`nextStartTime, this`sources, this`sourcesCreated, this`turn, this`stopped
      ensures Scheduled()
      ensures started.Some? <==>
              Playable(msg, old(outputContext), old(outputNode)) && DecodeAudioData(msg.audio.value, OUTPUT_SAMPLE_RATE).Ok?
      ensures started.Some? ==>
                started.value.start == Max(old(nextStartTime), now) &&
                started.value.duration == DecodeAudioData(msg.audio.value, OUTPUT_SAMPLE_RATE).value.Duration() &&
                started.value.source !in old(sources) &&
                (old(turn) != [] ==> old(turn)[|old(turn)| - 1].End() <= started.value.start)
      ensures !msg.interrupted && started.Some? ==>
                sources == old(sources) + {started.value.source} && isSpeaking &&
                nextStartTime == started.value.End() && turn == old(turn) + [started.value] && stopped == old(stopped)
      ensures Playable(msg, old(outputContext), old(outputNode))
              && DecodeAudioData(msg.audio.value, OUTPUT_SAMPLE_RATE).Err? ==>
                started.None? && isSpeaking && sources == old(sources) && nextStartTime == Max(old(nextStartTime), now) &&
                turn == old(turn) && stopped == old(stopped)
      ensures !Playable(msg, old(outputContext), old(outputNode)) && !msg.interrupted ==> unchanged(this)
      ensures msg.interrupted && (started.Some? || !Playable(msg, old(outputContext), old(outputNode))) ==>
                sources == {} && !isSpeaking && nextStartTime == 0.0 && turn == [] &&
                stopped == old(stopped) + old(sources) + (if started.Some? then {started.value.source} else {})
      ensures old(Valid()) && (started.Some? || !Playable(msg, old(outputContext), old(outputNode))) ==> Valid()
    {
      started := None;
      if msg.audio.Some? && msg.audio.value != "" && outputContext && outputNode {
        isSpeaking := true;
        nextStartTime := Max(nextStartTime, now);
        var decoded := DecodeAudioData(msg.audio.value, OUTPUT_SAMPLE_RATE);
        if decoded.Err? {
          return;
        }
        var seg := StartSource(decoded.value.Duration());
        started := Some(seg);
      }
      if msg.interrupted {
        FlushPlayback();
      }
    }

    /**
     * The playback step of the handler: speaking starts, the cursor is
     * synced to the device time and one fresh source starts there, right
     * after the turn's last segment.
     */
    method PlayAt(duration: real, now: real) returns (seg: Segment)
      requires Valid()
      requires duration >= 0.0
      modifies this`isSpeaking, this`nextStartTime, this`sources, this`sourcesCreated, this`turn
      ensures Valid()
      ensures seg == Segment(old(sourcesCreated), Max(old(nextStartTime), now), duration)
      ensures seg.source !in old(sources)
      ensures old(turn) != [] ==> old(turn)[|old(turn)| - 1].End() <= seg.start
      ensures sources == old(sources) + {seg.source} && isSpeaking
      ensures nextStartTime == seg.End() && turn == old(turn) + [seg]
    {
      isSpeaking := true;
      nextStartTime := Max(nextStartTime, now);
      seg := StartSource(duration);
    }

    /**
     * handleServerMessage with the payload decoded first: a malformed
     * payload is dropped without touching any state. A playable payload
     * starts one new source at max(cursor, device time), never before the
     * device time and exactly at the cursor while the clock has not passed
     * it; the cursor then sits at the segment's end. An interruption, also
     * one carried by the same message, then stops and forgets everything.
     */
    method HandleServerMessage(msg: ServerMessage, now: real) returns (started: Option<Segment>)
      requires Valid()
      modifies this`isSpeaking, this`nextStartTime, this`sources, this`sourcesCreated, this`turn, this`stopped
      ensures Valid()
      ensures started.Some? <==>
              Playable(msg, old(outputContext), old(outputNode)) && DecodeAudioData(msg.audio.value, OUTPUT_SAMPLE_RATE).Ok?
      ensures started.Some? ==>
                started.value.start == Max(old(nextStartTime), now) &&
                started.value.duration == DecodeAudioData(msg.audio.value, OUTPUT_SAMPLE_RATE).value.Duration() &&
                started.value.source !in old(sources) &&
                (old(turn) != [] ==> old(turn)[|old(turn)| - 1].End() <= started.value.start)
      ensures started.Some? ==> now <= started.value.start
      ensures started.Some? && now <= old(nextStartTime) ==> started.value.start == old(nextStartTime)
      ensures !msg.interrupted && started.Some? ==>
                sources == old(sources) + {started.value.source} && isSpeaking &&
                nextStartTime == started.value.End() && turn == old(turn) + [started.value] && stopped == old(stopped)
      ensures !msg.interrupted && started.None? ==> unchanged(this)
      ensures msg.interrupted ==>
                sources == {} && !isSpeaking && nextStartTime == 0.0 && turn == [] &&
                stopped == old(stopped) + old(sources) + (if started.Some? then {started.value.source} else {})
    {
      started := None;
      if msg.audio.Some? && msg.audio.value != "" && outputContext && outputNode {
        var decoded := DecodeAudioData(msg.audio.value, OUTPUT_SAMPLE_RATE);
        if decoded.Ok? {
          var seg := PlayAt(decoded.value.Duration(), now);
          started := Some(seg);
        }
      }
      if msg.interrupted {
        FlushPlayback();
      }
    }

    /**
     * The `ended` listener of a source: it forgets only that source, and
     * speaking stops when no source is left.
     */
    method OnSourceEnded(id: SourceId)
      requires Scheduled()
      modifies this`sources, this`isSpeaking
      ensures Scheduled()
      ensures sources == old(sources) - {id}
      ensures sources == {} ==> !isSpeaking
      ensures sources != {} ==> isSpeaking == old(isSpeaking)
      ensures old(Valid()) ==> Valid() && isSpeaking == (sources != {})
    {
      sources := sources - {id};
      if sources == {} {
        isSpeaking := false;
      }
    }

    /**
     * cleanup as written: disconnected, idle, silent, every source stopped
     * and forgotten, contexts, stream and processor released. The cursor is
     * kept. A second call changes nothing.
     */
    method CleanupAsWritten()
      requires Scheduled()
      modifies this`isConnected, this`status, this`isSpeaking, this`sources, this`stopped
      modifies this`inputContext, this`outputContext, this`inputStream, this`processor
      ensures Valid() && Released()
      ensures stopped == old(stopped) + old(sources)
      ensures old(Released()) ==> unchanged(this)
    {
      isConnected := false;
      status := Idle;
      isSpeaking := false;
      stopped := stopped + sources;
      sources := {};
      inputContext := false;
      outputContext := false;
      inputStream := false;
      processor := false;
      assert old(sources) == {} ==> stopped == old(stopped);
    }

    /**
     * cleanup that also rewinds the playback cursor, so the next session's
     * output context, whose clock starts again at zero, plays its first
     * segment on arrival. Total and idempotent like CleanupAsWritten.
     */
    method Cleanup()
      requires Scheduled()
      modifies this`isConnected, this`status, this`isSpeaking, this`sources, this`stopped
      modifies this`inputContext, this`outputContext, this`inputStream, this`processor
      modifies this`nextStartTime, this`turn
      ensures Valid() && Released()
      ensures stopped == old(stopped) + old(sources)
      ensures nextStartTime == 0.0 && turn == []
      ensures old(Released() && nextStartTime == 0.0 && turn == []) ==> unchanged(this)
    {
      CleanupAsWritten();
      nextStartTime := 0.0;
      turn := [];
    }

    /** onclose as written: the teardown of cleanup, which keeps the playback cursor. */
    method OnCloseAsWritten()
      requires Scheduled()
      modifies this`isConnected, this`status, this`isSpeaking, this`sources, this`stopped
      modifies this`inputContext, this`outputContext, this`inputStream, this`processor
      ensures Valid() && Released()
      ensures nextStartTime == old(nextStartTime) && turn == old(turn)
      ensures stopped == old(stopped) + old(sources)
    {
      CleanupAsWritten();
    }

    /** onclose over the rewinding teardown: released, idle, cursor at 0. */
    method OnClose()
      requires Scheduled()
      modifies this`isConnected, this`status, this`isSpeaking, this`sources, this`stopped
      modifies this`inputContext, this`outputContext, this`inputStream, this`processor
      modifies this`nextStartTime, this`turn
      ensures Valid() && Released() && nextStartTime == 0.0
      ensures stopped == old(stopped) + old(sources)
    {
      Cleanup();
    }

    /**
     * onerror as written: the error status is overwritten by cleanup's idle,
     * and the cursor is kept.
     */
    method OnErrorAsWritten()
      requires Scheduled()
      modifies this`isConnected, this`status, this`isSpeaking, this`sources, this`stopped
      modifies this`inputContext, this`outputContext, this`inputStream, this`processor
      ensures Valid() && Released()
      ensures status == Idle
      ensures nextStartTime == old(nextStartTime) && turn == old(turn)
      ensures stopped == old(stopped) + old(sources)
    {
      status := Error;
      CleanupAsWritten();
    }

    /** onerror reporting the failure: the rewinding teardown, then status error. */
    method OnError()
      requires Scheduled()
      modifies this`isConnected, this`status, this`isSpeaking, this`sources, this`stopped
      modifies this`inputContext, this`outputContext, this`inputStream, this`processor
      modifies this`nextStartTime, this`turn
      ensures Valid()
      ensures status == Error
      ensures !isConnected && !isSpeaking && sources == {} && nextStartTime == 0.0
      ensures !inputContext && !outputContext && !inputStream && !processor
      ensures stopped == old(stopped) + old(sources)
    {
      Cleanup();
      status := Error;
    }

    /**
     * handleEndCall as written: with a session, await it and close it,
     * swallowing any failure of either; then always cleanup, which keeps the
     * cursor. Reports whether the graceful close happened.
     */
    method HandleEndCallAsWritten(closeThrows: bool) returns (closed: bool)
      requires Scheduled()
      modifies this`isConnected, this`status, this`isSpeaking, this`sources, this`stopped
      modifies this`inputContext, this`outputContext, this`inputStream, this`processor
      ensures closed == (old(session) && !closeThrows)
      ensures Valid() && Released()
      ensures nextStartTime == old(nextStartTime) && turn == old(turn)
      ensures stopped == old(stopped) + old(sources)
    {
      closed := false;
      if session {
        if !closeThrows {
          closed := true;
        }
      }
      CleanupAsWritten();
    }

    /** handleEndCall over the rewinding teardown: the same close, and the cursor ends at 0. */
    method HandleEndCall(closeThrows: bool) returns (closed: bool)
      requires Scheduled()
      modifies this`isConnected, this`status, this`isSpeaking, this`sources, this`stopped
      modifies this`inputContext, this`outputContext, this`inputStream, this`processor
      modifies this`nextStartTime, this`turn
      ensures closed == (old(session) && !closeThrows)
      ensures Valid() && Released() && nextStartTime == 0.0
      ensures stopped == old(stopped) + old(sources)
    {
      closed := false;
      if session {
        if !closeThrows {
          closed := true;
        }
      }
      Cleanup();
    }
  }

  /** A downlink segment as it reaches handleServerMessage: the device time then, and its length. */
  datatype Arrival = Arrival(now: real, duration: real)

  /**
   * The start times handleServerMessage gives a run of segments that arrive
   * with no interruption between them, from a given cursor: each starts at
   * max(cursor, device time) and moves the cursor to its end.
   */
  function StartTimes(cursor: real, arrivals: seq<Arrival>): (starts: seq<real>)
    ensures |starts| == |arrivals|
    decreases |arrivals|
  {
    if arrivals == [] then []
    else
      var start := Max(cursor, arrivals[0].now);
      [start] + StartTimes(start + arrivals[0].duration, arrivals[1..])
  }

  function TotalDuration(arrivals: seq<Arrival>): real
    decreases |arrivals|
  {
    if arrivals == [] then 0.0 else arrivals[0].duration + TotalDuration(arrivals[1..])
  }

  /**
   * In such a run no segment starts before its arrival time or before the
   * cursor, and none overlaps the next: each starts no earlier than the
   * previous one's end, so they also play in arrival order.
   */
  lemma {:induction false} StartTimesNeverOverlap(cursor: real, arrivals: seq<Arrival>)
    requires forall i :: 0 <= i < |arrivals| ==> arrivals[i].duration >= 0.0
    ensures var starts := StartTimes(cursor, arrivals);
      (forall i :: 0 <= i < |arrivals| ==> starts[i] >= arrivals[i].now && starts[i] >= cursor) &&
      (forall i :: 0 <= i < |arrivals| - 1 ==> starts[i] + arrivals[i].duration <= starts[i + 1])
    decreases |arrivals|
  {
    if arrivals != [] {
      var start := Max(cursor, arrivals[0].now);
      StartTimesNeverOverlap(start + arrivals[0].duration, arrivals[1..]);
      var starts := StartTimes(cursor, arrivals);
      var rest := StartTimes(start + arrivals[0].duration, arrivals[1..]);
      assert starts == [start] + rest;
      forall i | 0 <= i < |arrivals|
        ensures starts[i] >= arrivals[i].now && starts[i] >= cursor
      {
        if i > 0 {
          assert starts[i] == rest[i - 1] && arrivals[i] == arrivals[1..][i - 1];
        }
      }
      forall i | 0 <= i < |arrivals| - 1
        ensures starts[i] + arrivals[i].duration <= starts[i + 1]
      {
        if i > 0 {
          assert starts[i] == rest[i - 1] && starts[i + 1] == rest[i] && arrivals[i] == arrivals[1..][i - 1];
        }
      }
    }
  }

  /**
   * Gapless playback: while each segment arrives before the cursor has been
   * overtaken by the device clock, the k-th segment starts at the initial
   * cursor plus the lengths of the segments before it.
   */
  lemma {:induction false} StartTimesGapless(cursor: real, arrivals: seq<Arrival>)
    requires forall i :: 0 <= i < |arrivals| ==> arrivals[i].now <= cursor + TotalDuration(arrivals[..i])
    ensures forall k :: 0 <= k < |arrivals| ==> StartTimes(cursor, arrivals)[k] == cursor + TotalDuration(arrivals[..k])
    decreases |arrivals|
  {
    if arrivals != [] {
      var next := cursor + arrivals[0].duration;
      assert arrivals[..0] == [];
      forall j | 0 <= j < |arrivals| - 1
        ensures arrivals[1..][j].now <= next + TotalDuration(arrivals[1..][..j])
      {
        assert arrivals[..j + 1][1..] == arrivals[1..][..j];
      }
      StartTimesGapless(next, arrivals[1..]);
      var starts := StartTimes(cursor, arrivals);
      var rest := StartTimes(next, arrivals[1..]);
      assert starts == [cursor] + rest;
      forall k | 0 <= k < |arrivals|
        ensures starts[k] == cursor + TotalDuration(arrivals[..k])
      {
        if k == 0 {
          assert arrivals[..0] == [];
        } else {
          assert arrivals[..k][1..] == arrivals[1..][..k - 1];
          assert starts[k] == rest[k - 1];
        }
      }
    }
  }

  /** A downlink message carrying one second of silent PCM at the output rate. */
  function OneSecondMessage(): ServerMessage {
    ServerMessage(Some(EncodeBase64(Int16ToBytes(seq(24000, i => 0)))), false)
  }

  lemma OneSecondMessagePlays()
    ensures OneSecondMessage().audio.Some? && OneSecondMessage().audio.value != ""
    ensures DecodeAudioData(OneSecondMessage().audio.value, OUTPUT_SAMPLE_RATE).Ok?
    ensures DecodeAudioData(OneSecondMessage().audio.value, OUTPUT_SAMPLE_RATE).value.Duration() == 1.0
  {
    var vs: seq<Int16> := seq(24000, i => 0);
    DecodeEncodedSamples(vs, OUTPUT_SAMPLE_RATE);
    EncodedLength(Int16ToBytes(vs));
  }

  /**
   * The mute flag as written: after the microphone is switched off during a
   * call, the frame handler still sends the frame.
   */
  method MuteIgnoredAsWritten(frame: seq<real>) returns (sent: Option<Blob>)
    ensures sent == Some(CreatePcmBlob(frame))
  {
    var call := new LiveSession();
    call.StartSession(true);
    call.OnOpen();
    call.ToggleMic();
    sent := call.OnAudioProcessAsWritten(frame);
  }

  /** With the current flag read, a frame captured after muting is dropped. */
  method MuteHonoured(frame: seq<real>) returns (sent: Option<Blob>)
    ensures sent == None
  {
    var call := new LiveSession();
    call.StartSession(true);
    call.OnOpen();
    call.ToggleMic();
    sent := call.OnAudioProcess(frame);
  }

  /** The payload "AA==" decodes to a single byte, which no Int16Array can view. */
  lemma OddPayloadFails()
    ensures DecodeAudioData("AA==", OUTPUT_SAMPLE_RATE) == Err(RangeError)
  {
    assert EncodeBase64([0]) == "AA==";
    Base64RoundTrip([0]);
  }

  /**
   * A malformed payload as written: the call was silent, and afterwards
   * isSpeaking is true while no source is playing.
   */
  method MalformedPayloadAsWritten(now: real) returns (speaking: bool, active: set<SourceId>)
    ensures speaking && active == {}
  {
    var call := new LiveSession();
    call.StartSession(true);
    call.OnOpen();
    OddPayloadFails();
    var started := call.HandleServerMessageAsWritten(ServerMessage(Some("AA=="), false), now);
    speaking, active := call.isSpeaking, call.sources;
  }

  /** With the payload decoded first, the malformed payload leaves the call silent. */
  method MalformedPayloadDropped(now: real) returns (speaking: bool, active: set<SourceId>)
    ensures !speaking && active == {}
  {
    var call := new LiveSession();
    call.StartSession(true);
    call.OnOpen();
    OddPayloadFails();
    var started := call.HandleServerMessage(ServerMessage(Some("AA=="), false), now);
    speaking, active := call.isSpeaking, call.sources;
  }

  /** A fresh call that has opened and played one second of audio from device time 0. */
  method OneSecondPlayed() returns (call: LiveSession)
    ensures fresh(call) && call.Valid() && call.nextStartTime == 1.0
  {
    call := new LiveSession();
    OneSecondMessagePlays();
    call.StartSession(true);
    call.OnOpen();
    var played := call.HandleServerMessage(OneSecondMessage(), 0.0);
  }

  /**
   * As written, isSpeaking stuck by a malformed payload is cleared once a
   * later segment plays to its end.
   */
  method MalformedThenSegmentEnds(now: real) returns (stuck: bool, afterEnd: bool)
    ensures stuck && !afterEnd
  {
    var call := new LiveSession();
    call.StartSession(true);
    call.OnOpen();
    OddPayloadFails();
    var dropped := call.HandleServerMessageAsWritten(ServerMessage(Some("AA=="), false), now);
    stuck := call.isSpeaking;
    OneSecondMessagePlays();
    var played := call.HandleServerMessageAsWritten(OneSecondMessage(), now);
    call.OnSourceEnded(played.value.source);
    afterEnd := call.isSpeaking;
  }

  /** As written, isSpeaking stuck by a malformed payload is cleared when the connection closes. */
  method MalformedThenClose(now: real) returns (stuck: bool, afterClose: bool)
    ensures stuck && !afterClose
  {
    var call := new LiveSession();
    call.StartSession(true);
    call.OnOpen();
    OddPayloadFails();
    var dropped := call.HandleServerMessageAsWritten(ServerMessage(Some("AA=="), false), now);
    stuck := call.isSpeaking;
    call.OnCloseAsWritten();
    afterClose := call.isSpeaking;
  }

  /** A fresh call that has opened and played one second of audio from device time 0, all as written. */
  method OneSecondPlayedAsWritten() returns (call: LiveSession)
    ensures fresh(call) && call.Scheduled() && call.nextStartTime == 1.0
  {
    call := new LiveSession();
    OneSecondMessagePlays();
    call.StartSession(true);
    call.OnOpen();
    var played := call.HandleServerMessageAsWritten(OneSecondMessage(), 0.0);
  }

  /**
   * The cursor as written: a call plays one second of audio and the
   * connection closes; in the next call the new output context's clock is
   * at 0, yet the first segment is started one second later.
   */
  method StaleCursorAsWritten() returns (first: Option<Segment>)
    ensures first.Some? && first.value.start == 1.0
  {
    var call := OneSecondPlayedAsWritten();
    OneSecondMessagePlays();
    call.OnCloseAsWritten();
    call.StartSession(true);
    call.OnOpen();
    assert call.nextStartTime == 1.0 && call.outputContext && call.outputNode;
    first := call.HandleServerMessageAsWritten(OneSecondMessage(), 0.0);
  }

  /** With cleanup rewinding the cursor, the next call's first segment starts on arrival. */
  method FreshCallStartsOnArrival() returns (first: Option<Segment>)
    ensures first.Some? && first.value.start == 0.0
  {
    var call := OneSecondPlayed();
    OneSecondMessagePlays();
    call.OnClose();
    call.StartSession(true);
    call.OnOpen();
    assert call.nextStartTime == 0.0 && call.outputContext && call.outputNode;
    first := call.HandleServerMessage(OneSecondMessage(), 0.0);
  }
}
