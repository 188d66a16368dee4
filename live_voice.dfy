/**
 * The browser side of a live voice call (services/geminiService.ts,
 * `LiveVoiceManager`). The audio and network objects are opaque: each handle
 * is only "set" or "null", the audio clock and the length of a decoded chunk
 * are `real` inputs, and what the manager hands to its callbacks is kept as
 * an event log. Inbound messages and audio callbacks arrive one at a time.
 */
module LiveVoice {
  import opened Wrappers
  import opened AppTypes

  /** What the manager passes to its three callbacks, in order. */
  datatype Event = StatusReport(status: ConnectionState) | Activity(active: bool) | Transcript(item: TranscriptItem)

  /** The resources `cleanup` releases. */
  datatype Handle = Stream | Processor | InputSource | InputContext | OutputContext

  /**
   * The step of `connect` that throws, if any. `ai.live.connect` is not
   * awaited: it hands back a promise at once, so a failed connection reaches
   * `onerror` rather than this path.
   */
  datatype SetupFailure = InputContextFails | OutputContextFails | MediaDenied

  /** The parts of a `LiveServerMessage` the manager reads. */
  datatype ServerMessage = ServerMessage(
    audio: Option<string>, interrupted: bool, inputText: Option<string>, outputText: Option<string>)

  /** A chunk handed to the audio output: where on the clock it starts and how long it plays. */
  datatype Playback = Playback(start: real, duration: real)

  // ---------------------------------------------------------------- the playback cursor

  function Max(a: real, b: real): real {
    if a >= b then a else b
  }

  /**
   * Where a chunk of `duration` seconds arriving at `clock` is scheduled: no
   * earlier than the cursor, so chunks queue up behind each other, and
   * never in the past.
   */
  function StartOf(cursor: real, clock: real): (start: real)
    ensures start >= cursor && start >= clock
    ensures start == cursor || start == clock
  {
    Max(cursor, clock)
  }

  /** Whether the message carries audio the manager plays: a non-empty payload while an output context exists. */
  predicate PlaysAudio(msg: ServerMessage, hasOutput: bool) {
    msg.audio.Some? && msg.audio.value != "" && hasOutput
  }

  /**
   * The cursor after one message: a played chunk moves it to the end of that
   * chunk, and an interruption, handled afterwards, puts it back to 0.
   */
  function CursorAfter(cursor: real, msg: ServerMessage, hasOutput: bool, clock: real, duration: real): (r: real)
    ensures msg.interrupted ==> r == 0.0
    ensures !msg.interrupted && PlaysAudio(msg, hasOutput) ==> r == StartOf(cursor, clock) + duration
    ensures !msg.interrupted && !PlaysAudio(msg, hasOutput) ==> r == cursor
  {
    var afterAudio := if PlaysAudio(msg, hasOutput) then StartOf(cursor, clock) + duration else cursor;
    if msg.interrupted then 0.0 else afterAudio
  }

  /** A chunk as it reaches the output: the clock then, its length, and whether it came with an interruption. */
  datatype Chunk = Chunk(clock: real, duration: real, interrupted: bool)

  function ChunkMessage(c: Chunk): ServerMessage {
    ServerMessage(Some("audio"), c.interrupted, None, None)
  }

  /** The playbacks a run of audio chunks produces, starting from `cursor`. */
  function Schedule(cursor: real, chunks: seq<Chunk>): (ps: seq<Playback>)
    ensures |ps| == |chunks|
    decreases |chunks|
  {
    if chunks == [] then []
    else
      var c := chunks[0];
      [Playback(StartOf(cursor, c.clock), c.duration)] + Schedule(CursorAfter(cursor, ChunkMessage(c), true, c.clock, c.duration), chunks[1..])
  }

  /** The cursor at the end of a run of chunks. */
  function FinalCursor(cursor: real, chunks: seq<Chunk>): real
    decreases |chunks|
  {
    if chunks == [] then cursor
    else
      var c := chunks[0];
      FinalCursor(CursorAfter(cursor, ChunkMessage(c), true, c.clock, c.duration), chunks[1..])
  }

  predicate Uninterrupted(chunks: seq<Chunk>) {
    forall k :: 0 <= k < |chunks| ==> !chunks[k].interrupted && chunks[k].duration >= 0.0
  }

  /** Each playback starts where the previous one has finished, or later. */
  predicate NoOverlap(ps: seq<Playback>) {
    forall i, j :: 0 <= i < j < |ps| ==> ps[i].start + ps[i].duration <= ps[j].start
  }

  /**
   * Without an interruption the scheduled chunks never overlap: each starts
   * no earlier than the cursor, and the cursor only moves past what was
   * scheduled.
   */
  lemma {:induction false} UninterruptedNoOverlap(cursor: real, chunks: seq<Chunk>)
    requires Uninterrupted(chunks)
    ensures NoOverlap(Schedule(cursor, chunks))
    ensures forall k :: 0 <= k < |chunks| ==> Schedule(cursor, chunks)[k].start >= cursor
    ensures forall k :: 0 <= k < |chunks| ==>
      Schedule(cursor, chunks)[k].start + Schedule(cursor, chunks)[k].duration <= FinalCursor(cursor, chunks)
    ensures FinalCursor(cursor, chunks) >= cursor
    decreases |chunks|
  {
    if chunks != [] {
      var c := chunks[0];
      var next := CursorAfter(cursor, ChunkMessage(c), true, c.clock, c.duration);
      var rest := chunks[1..];
      assert Uninterrupted(rest) by {
        forall k | 0 <= k < |rest| ensures !rest[k].interrupted && rest[k].duration >= 0.0 {
          assert rest[k] == chunks[k + 1];
        }
      }
      UninterruptedNoOverlap(next, rest);
      var ps := Schedule(cursor, chunks);
      var tail := Schedule(next, rest);
      assert ps[0] == Playback(StartOf(cursor, c.clock), c.duration);
      assert next == ps[0].start + ps[0].duration;
      assert forall k :: 1 <= k < |ps| ==> ps[k] == tail[k - 1];
    }
  }

  /**
   * Chunks that each arrive while the cursor, as the chunks before them left
   * it, is still ahead of the clock play back to back: the first starts at the
   * cursor and each next one exactly where the previous one ends.
   */
  lemma {:induction false} AheadOfClockGapless(cursor: real, chunks: seq<Chunk>)
    requires Uninterrupted(chunks)
    requires forall k :: 0 <= k < |chunks| ==> chunks[k].clock <= FinalCursor(cursor, chunks[..k])
    ensures chunks != [] ==> Schedule(cursor, chunks)[0].start == cursor
    ensures forall k :: 0 <= k < |chunks| - 1 ==>
      Schedule(cursor, chunks)[k + 1].start == Schedule(cursor, chunks)[k].start + Schedule(cursor, chunks)[k].duration
    decreases |chunks|
  {
    if chunks != [] {
      var c := chunks[0];
      var next := CursorAfter(cursor, ChunkMessage(c), true, c.clock, c.duration);
      var rest := chunks[1..];
      assert next == cursor + c.duration;
      assert c.clock <= cursor by {
        assert chunks[..0] == [];
      }
      assert Uninterrupted(rest) && forall k :: 0 <= k < |rest| ==> rest[k].clock <= FinalCursor(next, rest[..k]) by {
        forall k | 0 <= k < |rest| ensures !rest[k].interrupted && rest[k].duration >= 0.0 && rest[k].clock <= FinalCursor(next, rest[..k]) {
          assert rest[k] == chunks[k + 1];
          assert chunks[..k + 1][1..] == rest[..k];
        }
      }
      AheadOfClockGapless(next, rest);
      var ps := Schedule(cursor, chunks);
      var tail := Schedule(next, rest);
      assert forall k :: 1 <= k < |ps| ==> ps[k] == tail[k - 1];
    }
  }

  /**
   * An interruption puts the cursor back to 0, even when the same message
   * carried audio, so the next chunk starts at once: at the clock of its
   * arrival, whatever was queued before.
   */
  lemma AfterInterruption(cursor: real, msg: ServerMessage, hasOutput: bool, clock: real, duration: real, later: real)
    requires msg.interrupted && later >= 0.0
    ensures CursorAfter(cursor, msg, hasOutput, clock, duration) == 0.0
    ensures StartOf(CursorAfter(cursor, msg, hasOutput, clock, duration), later) == later
  {
  }

  // ---------------------------------------------------------------- voice activity

  function Abs(x: real): real {
    if x < 0.0 then -x else x
  }

  /** `inputData.reduce((acc, val) => acc + Math.abs(val), 0)`. */
  function AbsSum(samples: seq<real>): (r: real)
    ensures r >= 0.0
  {
    if samples == [] then 0.0 else AbsSum(samples[..|samples| - 1]) + Abs(samples[|samples| - 1])
  }

  /** The volume check: the mean absolute sample exceeds 0.01; an empty block gives 0/0, which is never above it. */
  predicate Active(samples: seq<real>) {
    |samples| > 0 && AbsSum(samples) / (|samples| as real) > 0.01
  }

  /** The mean exceeds 0.01 exactly when the sum exceeds 0.01 per sample. */
  lemma ActiveIffLoud(samples: seq<real>)
    ensures Active(samples) <==> |samples| > 0 && AbsSum(samples) > 0.01 * (|samples| as real)
  {
    if |samples| > 0 {
      var n := |samples| as real;
      assert AbsSum(samples) / n * n == AbsSum(samples);
    }
  }

  /** No sample above 0.01 in size keeps the sum at 0.01 per sample or less. */
  lemma {:induction false} QuietSum(samples: seq<real>)
    requires forall i :: 0 <= i < |samples| ==> Abs(samples[i]) <= 0.01
    ensures AbsSum(samples) <= 0.01 * (|samples| as real)
  {
    if samples != [] {
      var init := samples[..|samples| - 1];
      assert forall i :: 0 <= i < |init| ==> init[i] == samples[i];
      QuietSum(init);
    }
  }

  /** A block whose every sample is at most 0.01 in size is reported as silence. */
  lemma QuietIsInactive(samples: seq<real>)
    requires forall i :: 0 <= i < |samples| ==> Abs(samples[i]) <= 0.01
    ensures !Active(samples)
  {
    QuietSum(samples);
    ActiveIffLoud(samples);
  }

  // ---------------------------------------------------------------- transcripts and bytes

  /** The transcript lines of one message: a non-empty input text as the user's line, then a non-empty output text as the model's. */
  function TranscriptEvents(msg: ServerMessage): (es: seq<Event>)
    ensures |es| <= 2
    ensures forall k :: 0 <= k < |es| ==> es[k].Transcript? && es[k].item.isFinal && es[k].item.text != ""
    ensures forall k :: 0 <= k < |es| && es[k].item.role == User ==> msg.inputText == Some(es[k].item.text)
    ensures forall k :: 0 <= k < |es| && es[k].item.role == Model ==> msg.outputText == Some(es[k].item.text)
    ensures (msg.inputText.Some? && msg.inputText.value != "") <==> (es != [] && es[0].item.role == User)
    ensures (msg.outputText.Some? && msg.outputText.value != "") <==> (es != [] && es[|es| - 1].item.role == Model)
  {
    var user := if msg.inputText.Some? && msg.inputText.value != "" then [Transcript(TranscriptItem(User, msg.inputText.value, true))] else [];
    var model := if msg.outputText.Some? && msg.outputText.value != "" then [Transcript(TranscriptItem(Model, msg.outputText.value, true))] else [];
    user + model
  }

  newtype byte = x: int | 0 <= x < 256

  /** What storing character codes into a `Uint8Array` keeps: each code modulo 256. */
  function Bytes(s: string): (bs: seq<byte>)
    ensures |bs| == |s|
    ensures forall i :: 0 <= i < |s| && (s[i] as int) < 256 ==> bs[i] as int == s[i] as int
  {
    seq(|s|, i requires 0 <= i < |s| => ((s[i] as int) % 256) as byte)
  }

  /** `base64ToUint8Array` after `atob`: one byte per character of the decoded string, in order. */
  method DecodedBytes(binary: string) returns (bytes: array<byte>)
    ensures fresh(bytes)
    ensures bytes[..] == Bytes(binary)
  {
    var len := |binary|;
    bytes := new byte[len];
    var i := 0;
    while i < len
      invariant 0 <= i <= len
      invariant forall j :: 0 <= j < i ==> bytes[j] == Bytes(binary)[j]
    {
      bytes[i] := ((binary[i] as int) % 256) as byte;
      i := i + 1;
    }
  }

  /** `h?.release()`: the handle when it is set, nothing otherwise. */
  function IfSet(set_: bool, h: Handle): seq<Handle> {
    if set_ then [h] else []
  }

  /** The handles `cleanup` releases, in its order, given which are set. */
  function Releases(stream: bool, processor: bool, inputSource: bool, inputContext: bool, outputContext: bool): (hs: seq<Handle>)
    ensures Stream in hs <==> stream
    ensures InputSource in hs <==> inputSource
    ensures |hs| <= 5
  {
    IfSet(stream, Stream) + IfSet(processor, Processor) + IfSet(inputSource, InputSource) +
    IfSet(inputContext, InputContext) + IfSet(outputContext, OutputContext)
  }

  /** Appending the releases one handle at a time appends `Releases`. */
  lemma ReleasesAppend(r: seq<Handle>, stream: bool, processor: bool, inputSource: bool, inputContext: bool, outputContext: bool)
    ensures r + IfSet(stream, Stream) + IfSet(processor, Processor) + IfSet(inputSource, InputSource) +
            IfSet(inputContext, InputContext) + IfSet(outputContext, OutputContext) ==
            r + Releases(stream, processor, inputSource, inputContext, outputContext)
  {
    AppendFive(r, IfSet(stream, Stream), IfSet(processor, Processor), IfSet(inputSource, InputSource),
               IfSet(inputContext, InputContext), IfSet(outputContext, OutputContext));
  }

  lemma AppendFive<T>(r: seq<T>, a: seq<T>, b: seq<T>, c: seq<T>, d: seq<T>, e: seq<T>)
    ensures r + a + b + c + d + e == r + (a + b + c + d + e)
  {
    calc {
      r + a + b + c + d + e;
      r + (a + b) + c + d + e;
      r + (a + b + c) + d + e;
      r + (a + b + c + d) + e;
      r + (a + b + c + d + e);
    }
  }

  /** A second `cleanup` releases at most the input source again: it is the one handle the first one leaves set. */
  lemma CleanupAgain(inputSource: bool)
    ensures Releases(false, false, inputSource, false, false) == (if inputSource then [InputSource] else [])
  {
  }

  /** One manager of a live call. */
  class LiveVoiceManager {
    var hasSession: bool
    var hasInputContext: bool
    var hasOutputContext: bool
    var hasStream: bool
    var hasProcessor: bool
    var hasInputSource: bool
    var nextStartTime: real
    /** Everything passed to the status, activity and transcript callbacks, in order. */
    var events: seq<Event>
    /** Every chunk started on the output, in order. */
    var playbacks: seq<Playback>
    /** Every handle stopped, disconnected or closed, in order. */
    var released: seq<Handle>
    /** Every sample block handed on to the session. */
    var sent: seq<seq<real>>

    /** A new manager holds no handles and its cursor is at 0. */
    constructor ()
      ensures !hasSession && !hasInputContext && !hasOutputContext && !hasStream && !hasProcessor && !hasInputSource
      ensures nextStartTime == 0.0 && events == [] && playbacks == [] && released == [] && sent == []
    {
      hasSession, hasInputContext, hasOutputContext := false, false, false;
      hasStream, hasProcessor, hasInputSource := false, false, false;
      nextStartTime := 0.0;
      events, playbacks, released, sent := [], [], [], [];
    }

    /**
     * `connect`: reports CONNECTING, then creates the two audio contexts and
     * the microphone stream in that order, and stores the session promise once
     * they all succeed. A step that throws reports ERROR and leaves whatever
     * the earlier steps set; there is no cleanup on this path.
     */
    method Connect(failure: Option<SetupFailure>)
      modifies this
      ensures events == old(events) + [StatusReport(Connecting)] + (if failure.Some? then [StatusReport(Error)] else [])
      ensures hasInputContext == (failure != Some(InputContextFails) || old(hasInputContext))
      ensures hasOutputContext == (failure !in {Some(InputContextFails), Some(OutputContextFails)} || old(hasOutputContext))
      ensures hasStream == (failure.None? || old(hasStream))
      ensures hasSession == (failure.None? || old(hasSession))
      ensures hasProcessor == old(hasProcessor) && hasInputSource == old(hasInputSource)
      ensures nextStartTime == old(nextStartTime) && playbacks == old(playbacks) && released == old(released) && sent == old(sent)
    {
      assert failure.Some? ==> failure.value == InputContextFails || failure.value == OutputContextFails || failure.value == MediaDenied;
      events := events + [StatusReport(Connecting)];
      if failure != Some(InputContextFails) {
        hasInputContext := true;
        if failure != Some(OutputContextFails) {
          hasOutputContext := true;
          if failure != Some(MediaDenied) {
            hasStream := true;
            hasSession := true;
          }
        }
      }
      if failure.Some? {
        events := events + [StatusReport(Error)];
      }
    }

    /** `onopen`: reports CONNECTED and starts streaming the microphone. */
    method OnOpen()
      modifies this
      ensures events == old(events) + [StatusReport(Connected)]
      ensures (old(hasInputContext) && old(hasStream)) ==> hasInputSource && hasProcessor
      ensures !(old(hasInputContext) && old(hasStream)) ==> hasInputSource == old(hasInputSource) && hasProcessor == old(hasProcessor)
      ensures hasSession == old(hasSession) && hasInputContext == old(hasInputContext) && hasOutputContext == old(hasOutputContext)
      ensures hasStream == old(hasStream) && nextStartTime == old(nextStartTime)
      ensures playbacks == old(playbacks) && released == old(released) && sent == old(sent)
    {
      events := events + [StatusReport(Connected)];
      StartAudioStreaming();
    }

    /** `startAudioStreaming`: without an input context and a stream it does nothing. */
    method StartAudioStreaming()
      modifies this
      ensures (old(hasInputContext) && old(hasStream)) ==> hasInputSource && hasProcessor
      ensures !(old(hasInputContext) && old(hasStream)) ==> hasInputSource == old(hasInputSource) && hasProcessor == old(hasProcessor)
      ensures hasSession == old(hasSession) && hasInputContext == old(hasInputContext) && hasOutputContext == old(hasOutputContext)
      ensures hasStream == old(hasStream) && nextStartTime == old(nextStartTime)
      ensures events == old(events) && playbacks == old(playbacks) && released == old(released) && sent == old(sent)
    {
      if !hasInputContext || !hasStream {
        return;
      }
      hasInputSource := true;
      hasProcessor := true;
    }

    /** `onaudioprocess`: reports whether the block is loud enough, then hands it on. */
    method OnAudioProcess(samples: seq<real>)
      modifies this
      ensures events == old(events) + [Activity(Active(samples))]
      ensures sent == old(sent) + [samples]
      ensures hasSession == old(hasSession) && hasInputContext == old(hasInputContext) && hasOutputContext == old(hasOutputContext)
      ensures hasStream == old(hasStream) && hasProcessor == old(hasProcessor) && hasInputSource == old(hasInputSource)
      ensures nextStartTime == old(nextStartTime) && playbacks == old(playbacks) && released == old(released)
    {
      var volume := if |samples| > 0 then AbsSum(samples) / (|samples| as real) else 0.0;
      if |samples| > 0 && volume > 0.01 {
        events := events + [Activity(true)];
      } else {
        events := events + [Activity(false)];
      }
      sent := sent + [samples];
    }

    /**
     * `handleServerMessage`, with the audio clock at arrival and the length of
     * the decoded chunk as inputs: a played chunk is reported as activity and
     * scheduled at `StartOf(cursor, clock)`; then an interruption resets the
     * cursor; then the transcript lines follow.
     */
    method HandleServerMessage(msg: ServerMessage, clock: real, duration: real)
      modifies this
      ensures nextStartTime == CursorAfter(old(nextStartTime), msg, old(hasOutputContext), clock, duration)
      ensures PlaysAudio(msg, old(hasOutputContext)) ==>
        playbacks == old(playbacks) + [Playback(StartOf(old(nextStartTime), clock), duration)] &&
        events == old(events) + [Activity(true)] + TranscriptEvents(msg)
      ensures !PlaysAudio(msg, old(hasOutputContext)) ==>
        playbacks == old(playbacks) && events == old(events) + TranscriptEvents(msg)
      ensures hasSession == old(hasSession) && hasInputContext == old(hasInputContext) && hasOutputContext == old(hasOutputContext)
      ensures hasStream == old(hasStream) && hasProcessor == old(hasProcessor) && hasInputSource == old(hasInputSource)
      ensures released == old(released) && sent == old(sent)
    {
      if msg.audio.Some? && msg.audio.value != "" && hasOutputContext {
        events := events + [Activity(true)];
        nextStartTime := Max(nextStartTime, clock);
        playbacks := playbacks + [Playback(nextStartTime, duration)];
        nextStartTime := nextStartTime + duration;
      }
      if msg.interrupted {
        nextStartTime := 0.0;
      }
      if msg.inputText.Some? && msg.inputText.value != "" {
        events := events + [Transcript(TranscriptItem(User, msg.inputText.value, true))];
      }
      if msg.outputText.Some? && msg.outputText.value != "" {
        events := events + [Transcript(TranscriptItem(Model, msg.outputText.value, true))];
      }
    }

    /** `source.onended`: a scheduled chunk finished playing. */
    method OnPlaybackEnded()
      modifies this
      ensures events == old(events) + [Activity(false)]
      ensures hasSession == old(hasSession) && hasInputContext == old(hasInputContext) && hasOutputContext == old(hasOutputContext)
      ensures hasStream == old(hasStream) && hasProcessor == old(hasProcessor) && hasInputSource == old(hasInputSource)
      ensures nextStartTime == old(nextStartTime) && playbacks == old(playbacks) && released == old(released) && sent == old(sent)
    {
      events := events + [Activity(false)];
    }

    /** `h?.stop()`, `h?.disconnect()`, `h?.close()`: a handle is released only when it is set. */
    method Release(h: Handle, isSet: bool)
      modifies this
      ensures released == old(released) + IfSet(isSet, h)
      ensures hasSession == old(hasSession) && hasInputContext == old(hasInputContext) && hasOutputContext == old(hasOutputContext)
      ensures hasStream == old(hasStream) && hasProcessor == old(hasProcessor) && hasInputSource == old(hasInputSource)
      ensures nextStartTime == old(nextStartTime) && events == old(events) && playbacks == old(playbacks) && sent == old(sent)
    {
      if isSet {
        released := released + [h];
      }
    }

    /**
     * `cleanup`: stops, disconnects or closes each handle that is set, then
     * clears all of them but the input source and the session.
     */
    method Cleanup()
      modifies this
      ensures released == old(released) + Releases(old(hasStream), old(hasProcessor), old(hasInputSource), old(hasInputContext), old(hasOutputContext))
      ensures !hasStream && !hasProcessor && !hasInputContext && !hasOutputContext
      ensures hasInputSource == old(hasInputSource) && hasSession == old(hasSession)
      ensures nextStartTime == old(nextStartTime) && events == old(events) && playbacks == old(playbacks) && sent == old(sent)
    {
      ghost var r0 := released;
      Release(Stream, hasStream);
      Release(Processor, hasProcessor);
      Release(InputSource, hasInputSource);
      Release(InputContext, hasInputContext);
      Release(OutputContext, hasOutputContext);
      ReleasesAppend(r0, hasStream, hasProcessor, hasInputSource, hasInputContext, hasOutputContext);
      hasStream, hasProcessor, hasInputContext, hasOutputContext := false, false, false, false;
    }

    /** `onclose`: reports DISCONNECTED, then cleans up. */
    method OnClose()
      modifies this
      ensures events == old(events) + [StatusReport(Disconnected)]
      ensures released == old(released) + Releases(old(hasStream), old(hasProcessor), old(hasInputSource), old(hasInputContext), old(hasOutputContext))
      ensures !hasStream && !hasProcessor && !hasInputContext && !hasOutputContext
      ensures hasInputSource == old(hasInputSource) && hasSession == old(hasSession)
      ensures nextStartTime == old(nextStartTime) && playbacks == old(playbacks) && sent == old(sent)
    {
      events := events + [StatusReport(Disconnected)];
      Cleanup();
    }

    /** `onerror`: reports ERROR, then cleans up. */
    method OnError()
      modifies this
      ensures events == old(events) + [StatusReport(Error)]
      ensures released == old(released) + Releases(old(hasStream), old(hasProcessor), old(hasInputSource), old(hasInputContext), old(hasOutputContext))
      ensures !hasStream && !hasProcessor && !hasInputContext && !hasOutputContext
      ensures hasInputSource == old(hasInputSource) && hasSession == old(hasSession)
      ensures nextStartTime == old(nextStartTime) && playbacks == old(playbacks) && sent == old(sent)
    {
      events := events + [StatusReport(Error)];
      Cleanup();
    }

    /** `disconnect`: cleans up, then reports DISCONNECTED, whatever the state. */
    method Disconnect()
      modifies this
      ensures events == old(events) + [StatusReport(Disconnected)]
      ensures released == old(released) + Releases(old(hasStream), old(hasProcessor), old(hasInputSource), old(hasInputContext), old(hasOutputContext))
      ensures !hasStream && !hasProcessor && !hasInputContext && !hasOutputContext
      ensures hasInputSource == old(hasInputSource) && hasSession == old(hasSession)
      ensures nextStartTime == old(nextStartTime) && playbacks == old(playbacks) && sent == old(sent)
    {
      Cleanup();
      events := events + [StatusReport(Disconnected)];
    }
  }
}
