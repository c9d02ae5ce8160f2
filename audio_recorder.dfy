/** The recording session: captures microphone chunks through a callback
    while a stream is open and, on stop, either rejects a clip shorter than
    one second or writes the captured chunks to a WAV file. The audio
    library is represented by ghost state: whether a library handle is live,
    whether the input stream is open, and the trace of calls made on them. */
module Recorder {

  type Byte = b: int | 0 <= b < 256

  /** Fixed capture parameters. */
  const SampleRate: nat := 44100
  const Chunk: nat := 1024
  const Channels: nat := 1
  /** Bytes per sample of the 16-bit signed integer sample format. */
  const SampleWidth: nat := 2

  datatype SampleFormat = PaInt16

  /** The WAV file the recorder writes: its header fields and its sample data. */
  datatype WavFile = WavFile(channels: nat, sampleWidth: nat, frameRate: nat, data: seq<Byte>)

  /** Calls made on the audio library and the file system, in order. */
  datatype AudioEvent =
    | CreateAudio
    | OpenStream(format: SampleFormat, channels: nat, rate: nat, framesPerBuffer: nat)
    | StopStream
    | CloseStream
    | TerminateAudio
    | WriteWav(path: string, wav: WavFile)

  /** Result of start: `True`, `False`, or the exception the device raised. */
  datatype StartOutcome = Started | AlreadyRecording | DeviceUnavailable

  /** Result of stop: `None`, the "at least 1 second" error, or the WAV path. */
  datatype StopOutcome = NotRecording | TooShort | Saved(path: string)

  /** What the stream callback tells the driver to do next. */
  datatype CallbackFlag = Continue

  /** `(frame_count * chunk) / sample_rate`, in seconds. */
  function ClipSeconds(frameCount: nat): (seconds: real)
    ensures seconds >= 0.0
    ensures seconds * SampleRate as real == (frameCount * Chunk) as real
  {
    (frameCount * Chunk) as real / SampleRate as real
  }

  /** The stop guard: no chunks at all, or less than one second of them.
      It is an integer comparison: fewer than 44 chunks. */
  predicate TooShortClip(frames: seq<seq<Byte>>): (short: bool)
    ensures short <==> |frames| * Chunk < SampleRate
    ensures short <==> |frames| < 44
  {
    var n := |frames|;
    assert ClipSeconds(n) * 44100.0 == (n * Chunk) as real;
    assert n < 44 ==> n * Chunk <= 43 * 1024;
    assert n >= 44 ==> n * Chunk >= 44 * 1024;
    frames == [] || ClipSeconds(n) < 1.0
  }

  /** `b''.join(frames)`. */
  function JoinFrames(frames: seq<seq<Byte>>): (payload: seq<Byte>)
    ensures frames == [] ==> payload == []
    ensures forall i :: 0 <= i < |frames| ==> |frames[i]| <= |payload|
  {
    if frames == [] then [] else frames[0] + JoinFrames(frames[1..])
  }

  lemma {:induction false} JoinFramesAppend(frames: seq<seq<Byte>>, chunk: seq<Byte>)
    ensures JoinFrames(frames + [chunk]) == JoinFrames(frames) + chunk
  {
    if frames == [] {
      assert [chunk][1..] == [];
    } else {
      assert (frames + [chunk])[1..] == frames[1..] + [chunk];
      JoinFramesAppend(frames[1..], chunk);
    }
  }

  /** Chunks of equal size join into a payload of that many times the size. */
  lemma {:induction false} JoinFramesLength(frames: seq<seq<Byte>>, width: nat)
    requires forall i :: 0 <= i < |frames| ==> |frames[i]| == width
    ensures |JoinFrames(frames)| == |frames| * width
  {
    if frames != [] {
      assert forall i :: 0 <= i < |frames| - 1 ==> frames[1..][i] == frames[i + 1];
      JoinFramesLength(frames[1..], width);
    }
  }

  /** The number of sample frames a WAV file holds. */
  function WavFrameCount(wav: WavFile): nat
    requires wav.channels * wav.sampleWidth > 0
  {
    |wav.data| / (wav.channels * wav.sampleWidth)
  }

  /** The clip built from full chunks holds exactly `Chunk` sample frames per
      chunk, so its length at the declared rate is the duration the stop guard
      computed. */
  lemma ClipOfFullChunks(frames: seq<seq<Byte>>)
    requires forall i :: 0 <= i < |frames| ==> |frames[i]| == Chunk * Channels * SampleWidth
    ensures WavFrameCount(ClipWav(frames)) == |frames| * Chunk
    ensures WavFrameCount(ClipWav(frames)) as real / ClipWav(frames).frameRate as real == ClipSeconds(|frames|)
  {
    JoinFramesLength(frames, Chunk * Channels * SampleWidth);
    assert |JoinFrames(frames)| == (|frames| * Chunk) * 2;
  }

  /** The WAV file written for the captured chunks. */
  function ClipWav(frames: seq<seq<Byte>>): (wav: WavFile)
    ensures wav.channels == 1 && wav.sampleWidth == 2 && wav.frameRate == 44100
    ensures forall i :: 0 <= i < |frames| ==> |frames[i]| <= |wav.data|
  {
    WavFile(Channels, SampleWidth, SampleRate, JoinFrames(frames))
  }

  /** The calls that release the stream and the library handle, in order. */
  const Release: seq<AudioEvent> := [StopStream, CloseStream, TerminateAudio]

  class AudioRecorder {
    const sampleRate: nat := SampleRate
    const chunk: nat := Chunk
    const formatType: SampleFormat := PaInt16
    const channels: nat := Channels

    var isRecording: bool
    /** Captured chunks, in delivery order. */
    var frames: seq<seq<Byte>>
    /** Wall-clock time when the current recording started. */
    var startTime: real

    /** The input stream is open. */
    ghost var streamOpen: bool
    /** The current audio library handle exists and is not terminated. */
    ghost var audioLive: bool
    /** Every call made on the audio library and the file system. */
    ghost var events: seq<AudioEvent>

    /** A recording is in progress exactly while the stream is open, and an
        open stream belongs to a live library handle. */
    ghost predicate Valid()
      reads this
    {
      (isRecording <==> streamOpen) && (isRecording ==> audioLive)
    }

    constructor ()
      ensures Valid()
      ensures !isRecording && frames == [] && startTime == 0.0
      ensures !streamOpen && !audioLive && events == []
    {
      isRecording := false;
      frames := [];
      startTime := 0.0;
      streamOpen := false;
      audioLive := false;
      events := [];
    }

    /** Starts capturing unless a recording is already in progress.
        `deviceOpens` says whether the audio device accepts the stream. */
    method StartRecording(now: real, deviceOpens: bool) returns (outcome: StartOutcome)
      requires Valid()
      modifies this
      ensures Valid()
      ensures old(isRecording) ==> outcome == AlreadyRecording && unchanged(this)
      ensures !old(isRecording) && deviceOpens ==>
                && outcome == Started
                && isRecording && streamOpen && audioLive
                && frames == [] && startTime == now
                && events == old(events) + [CreateAudio, OpenStream(PaInt16, 1, 44100, 1024)]
      ensures !old(isRecording) && !deviceOpens ==>
                && outcome == DeviceUnavailable
                && !isRecording && !streamOpen && audioLive
                && frames == [] && startTime == old(startTime)
                && events == old(events) + [CreateAudio]
    {
      if isRecording {
        return AlreadyRecording;
      }
      audioLive := true;
      events := events + [CreateAudio];
      frames := [];
      if !deviceOpens {
        return DeviceUnavailable;
      }
      streamOpen := true;
      events := events + [OpenStream(formatType, channels, sampleRate, chunk)];
      isRecording := true;
      startTime := now;
      outcome := Started;
    }

    /** Stops capturing. `tempPath` is the name of the fresh temporary file
        the WAV data goes to. */
    method StopRecording(tempPath: string) returns (outcome: StopOutcome)
      requires Valid()
      modifies this
      ensures Valid()
      ensures !old(isRecording) ==> outcome == NotRecording && unchanged(this)
      ensures old(isRecording) ==>
                && !isRecording && !streamOpen && !audioLive
                && frames == old(frames) && startTime == old(startTime)
      ensures old(isRecording) && TooShortClip(old(frames)) ==>
                outcome == TooShort && events == old(events) + Release
      ensures old(isRecording) && !TooShortClip(old(frames)) ==>
                && outcome == Saved(tempPath)
                && events == old(events) + Release + [WriteWav(tempPath, ClipWav(old(frames)))]
    {
      if !isRecording {
        return NotRecording;
      }
      var duration := (|frames| * chunk) as real / sampleRate as real;
      if frames == [] || duration < 1.0 {
        ReleaseStream();
        isRecording := false;
        return TooShort;
      }
      ReleaseStream();
      var wav := WavFile(channels, SampleWidth, sampleRate, JoinFrames(frames));
      events := events + [WriteWav(tempPath, wav)];
      isRecording := false;
      outcome := Saved(tempPath);
    }

    /** `stream.stop_stream()`, `stream.close()`, `audio.terminate()`. */
    method ReleaseStream()
      requires streamOpen && audioLive
      modifies this`streamOpen, this`audioLive, this`events
      ensures !streamOpen && !audioLive
      ensures events == old(events) + Release
    {
      events := events + [StopStream];
      events := events + [CloseStream];
      streamOpen := false;
      events := events + [TerminateAudio];
      audioLive := false;
    }

    /** The driver's per-chunk callback: stores the chunk and passes it through. */
    method AudioCallback(inData: seq<Byte>) returns (outData: seq<Byte>, flag: CallbackFlag)
      modifies this`frames
      ensures frames == old(frames) + [inData]
      ensures JoinFrames(frames) == JoinFrames(old(frames)) + inData
      ensures outData == inData && flag == Continue
    {
      JoinFramesAppend(frames, inData);
      frames := frames + [inData];
      outData, flag := inData, Continue;
    }

    /** Seconds since the recording started, or 0 when idle. */
    function RecordingDuration(now: real): (seconds: real)
      reads this
      ensures !isRecording ==> seconds == 0.0
      ensures isRecording ==> seconds == now - startTime
    {
      if !isRecording then 0.0 else now - startTime
    }
  }
}
