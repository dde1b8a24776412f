/**
 * The audio controller of the radio: the session state machine (Stop, Play,
 * OpenDevice, OpenFile) and the render and capture callbacks the devices call
 * once per period.
 */
module Radio {

  import opened Wrappers
  import opened Samples
  import Fifo
  import opened Lifecycle

  /**
   * The application hook that fills the mono audio buffer: given the I/Q block of
   * the period and the audio buffer as the hook finds it, the value it leaves at
   * each slot.
   */
  type BufferNeededDelegate = (seq<Complex>, seq<real>, nat) -> real

  /** The queue after one capture period: unchanged under backlog, else grown by the captured samples. */
  function CaptureStep(queue: seq<Complex>, frames: seq<Float>): (queued: seq<Complex>)
    ensures |queue| > 2 * |frames| ==> queued == queue
    ensures |queue| <= 2 * |frames| ==> |queue| <= |queued| && queued[..|queue|] == queue && queued[|queue|..] == Captured(frames)
  {
    if |queue| > 2 * |frames| then queue else Fifo.Write(queue, Captured(frames))
  }

  /** A capture period adds exactly one sample per frame, or nothing under backlog. */
  lemma CaptureStepLength(queue: seq<Complex>, frames: seq<Float>)
    ensures |queue| > 2 * |frames| ==> CaptureStep(queue, frames) == queue
    ensures |queue| <= 2 * |frames| ==> |CaptureStep(queue, frames)| == |queue| + |frames| / 2
  {
  }

  /**
   * With periods of a fixed size the capture path never lets the queue grow past
   * two buffer lengths plus one period, however many periods go unread.
   */
  lemma CaptureBoundsBacklog(queue: seq<Complex>, frames: seq<Float>)
    requires |queue| <= 2 * |frames| + |frames| / 2
    ensures |CaptureStep(queue, frames)| <= 2 * |frames| + |frames| / 2
  {
  }

  /** The render path of the next period reads back, in order, what the capture path queued. */
  lemma LoopbackDelivers(queue: seq<Complex>, frames: seq<Float>)
    requires |queue| <= 2 * |frames|
    ensures Fifo.Read(CaptureStep(queue, frames), |queue| + |frames| / 2, Zero).0 == queue + Captured(frames)
  {
    Fifo.ReadAfterWrite(queue, Captured(frames), Zero);
  }

  /**
   * The output loop of the render path: each scaled amplitude into both slots of
   * its frame, leaving any trailing odd slot of the device buffer as it was.
   */
  method WriteStereo(buffer: array<Float>, audio: array<real>, gain: real)
    requires 2 * audio.Length <= buffer.Length
    modifies buffer
    ensures buffer[..] == Duplicated(audio[..], gain) + old(buffer[..])[2 * audio.Length..]
  {
    for i := 0 to audio.Length
      invariant buffer[..2 * i] == Duplicated(audio[..i], gain)
      invariant buffer[2 * i..] == old(buffer[..])[2 * i..]
    {
      var value := Amplified(audio[i], gain);
      buffer[i * 2] := value;
      buffer[i * 2 + 1] := value;
      assert audio[..i + 1] == audio[..i] + [audio[i]];
      DuplicatedSnoc(audio[..i], audio[i], gain);
    }
    assert audio[..audio.Length] == audio[..];
    assert buffer[..] == buffer[..2 * audio.Length] + buffer[2 * audio.Length..];
  }

  /** Invokes the hook once with the period's I/Q samples and the audio buffer it fills. */
  method RaiseBufferNeeded(hook: BufferNeededDelegate, iq: array<Complex>, audio: array<real>)
    modifies audio
    ensures audio[..] == HookOutput(hook, iq[..], old(audio[..]))
  {
    var written := HookOutput(hook, iq[..], audio[..]);
    forall i | 0 <= i < audio.Length {
      audio[i] := written[i];
    }
    assert audio[..] == written;
    assert iq[..] == old(iq[..]);
  }

  /** The audio buffer a hook leaves when it finds `found` and is given `samples`. */
  function HookOutput(hook: BufferNeededDelegate, samples: seq<Complex>, found: seq<real>): seq<real>
  {
    seq(|found|, i requires 0 <= i < |found| => hook(samples, found, i))
  }

  /** The audio buffer the hook finds: the previous one when its length fits, else a new zeroed one. */
  ghost function ScratchBefore(a: array?<real>, n: nat): (s: seq<real>)
    reads a
  {
    if a != null && a.Length == n then a[..] else seq(n, _ => 0.0)
  }

  class AudioControl {
    var audioBuffer: array?<real>
    var iqBuffer: array?<Complex>
    var recorderIQBuffer: array?<Complex>

    var player: Option<Device>
    var recorder: Option<Device>
    var waveFile: Option<WaveFile>
    var audioStream: Option<seq<Complex>>

    var sampleRate: int
    var inputDevice: int
    var bufferSizeInMs: int
    var outputDevice: int

    var bufferNeeded: Option<BufferNeededDelegate>
    var audioGain: real
    var swapIQ: bool

    /** The lifecycle fields as a value. */
    function State(): Session
      reads this
    {
      Session(player, recorder, audioStream, waveFile, sampleRate, inputDevice, outputDevice, bufferSizeInMs)
    }

    ghost predicate Valid()
      reads this
    {
      && Consistent(State())
      && (iqBuffer != null && recorderIQBuffer != null ==> iqBuffer != recorderIQBuffer)
    }

    /** Neither the scratch buffers nor the hook, gain or swap settings changed. */
    twostate predicate ControlsKept()
      reads this
    {
      && audioBuffer == old(audioBuffer) && iqBuffer == old(iqBuffer)
      && recorderIQBuffer == old(recorderIQBuffer)
      && bufferNeeded == old(bufferNeeded) && audioGain == old(audioGain) && swapIQ == old(swapIQ)
    }

    constructor ()
      ensures Valid() && State() == Initial
      ensures audioGain == 10.0 && !swapIQ && bufferNeeded.None?
      ensures audioBuffer == null && iqBuffer == null && recorderIQBuffer == null
    {
      audioBuffer, iqBuffer, recorderIQBuffer := null, null, null;
      player, recorder, waveFile, audioStream := None, None, None, None;
      sampleRate, inputDevice, bufferSizeInMs, outputDevice := 0, 0, 0, 0;
      bufferNeeded := None;
      swapIQ := false;
      audioGain := 10.0;
    }

    /** Reallocates the render scratch buffers whose length is not `n`; a new buffer is zeroed. */
    method ResizeRenderBuffers(n: nat)
      requires Valid()
      modifies this`audioBuffer, this`iqBuffer
      ensures Valid()
      ensures audioBuffer != null && iqBuffer != null
      ensures audioBuffer.Length == n && iqBuffer.Length == n
      ensures audioBuffer[..] == old(ScratchBefore(audioBuffer, n))
      ensures audioBuffer == old(audioBuffer) || fresh(audioBuffer)
      ensures iqBuffer == old(iqBuffer) || fresh(iqBuffer)
    {
      if audioBuffer == null || audioBuffer.Length != n {
        audioBuffer := new real[n](_ => 0.0);
      }
      if iqBuffer == null || iqBuffer.Length != n {
        iqBuffer := new Complex[n](_ => Zero);
      }
    }

    /**
     * Fills the I/Q scratch buffer for one render period: from the wave file when
     * one is bound, else from the queue.
     */
    method ReadIQ(fileBlock: seq<Complex>)
      requires Valid() && iqBuffer != null
      requires waveFile.Some? || audioStream.Some?
      requires waveFile.Some? ==> |fileBlock| == iqBuffer.Length
      modifies this`audioStream, iqBuffer
      ensures Valid()
      ensures waveFile.Some? ==> audioStream == old(audioStream) && iqBuffer[..] == fileBlock
      ensures waveFile.None? ==>
        var read := Fifo.Read(old(audioStream).value, iqBuffer.Length, Zero);
        audioStream == Some(read.1) && iqBuffer[..] == read.0
    {
      var n := iqBuffer.Length;
      var block: seq<Complex>;
      if waveFile.Some? {
        block := fileBlock;
      } else {
        var read := Fifo.Read(audioStream.value, n, Zero);
        block := read.0;
        audioStream := Some(read.1);
      }
      var iq := iqBuffer;
      forall i | 0 <= i < n {
        iq[i] := block[i];
      }
    }

    /**
     * Render callback for a device buffer of `buffer.Length` floats, n = buffer.Length / 2
     * frames. `fileBlock` is what the wave file's Read delivers for the period.
     */
    method PlayerFiller(buffer: array<Float>, fileBlock: seq<Complex>)
      requires Valid()
      requires bufferNeeded.Some? ==> waveFile.Some? || audioStream.Some?
      requires waveFile.Some? ==> |fileBlock| == buffer.Length / 2
      modifies this`audioBuffer, this`iqBuffer, this`audioStream, buffer, audioBuffer, iqBuffer
      ensures Valid()
      ensures old(bufferNeeded).None? ==>
        && unchanged(this) && unchanged(buffer)
        && (audioBuffer != null ==> unchanged(audioBuffer))
        && (iqBuffer != null ==> unchanged(iqBuffer))
      ensures recorderIQBuffer == old(recorderIQBuffer)
      ensures bufferNeeded == old(bufferNeeded) && audioGain == old(audioGain) && swapIQ == old(swapIQ)
      ensures bufferNeeded.Some? ==>
        && audioBuffer != null && iqBuffer != null
        && audioBuffer.Length == buffer.Length / 2 && iqBuffer.Length == buffer.Length / 2
      ensures bufferNeeded.Some? && old(waveFile).Some? ==>
        State() == old(State()) && iqBuffer[..] == fileBlock
      ensures bufferNeeded.Some? && old(waveFile).None? ==>
        var read := Fifo.Read(old(audioStream).value, buffer.Length / 2, Zero);
        State() == old(State()).(audioStream := Some(read.1)) && iqBuffer[..] == read.0
      ensures bufferNeeded.Some? ==>
        audioBuffer[..] == HookOutput(bufferNeeded.value, iqBuffer[..], old(ScratchBefore(audioBuffer, buffer.Length / 2)))
      ensures bufferNeeded.Some? ==>
        buffer[..] == Duplicated(audioBuffer[..], EffectiveGain(audioGain)) + old(buffer[..])[2 * (buffer.Length / 2)..]
    {
      if bufferNeeded.None? {
        return;
      }
      var n := buffer.Length / 2;
      ghost var before := ScratchBefore(audioBuffer, n);
      ResizeRenderBuffers(n);
      var audio, iq := audioBuffer, iqBuffer;
      ReadIQ(fileBlock);

      RaiseBufferNeeded(bufferNeeded.value, iq, audio);
      WriteStereo(buffer, audio, EffectiveGain(audioGain));
    }

    /**
     * Capture callback for a device buffer of `buffer.Length` floats: drop the
     * period when the queue already holds more than twice that many samples,
     * else queue one attenuated I/Q sample per frame.
     */
    method RecorderFiller(buffer: array<Float>)
      requires Valid() && audioStream.Some?
      modifies this`recorderIQBuffer, this`audioStream, recorderIQBuffer
      ensures Valid()
      ensures State() == old(State()).(audioStream := Some(CaptureStep(old(audioStream.value), buffer[..])))
      ensures audioBuffer == old(audioBuffer) && iqBuffer == old(iqBuffer)
      ensures bufferNeeded == old(bufferNeeded) && audioGain == old(audioGain) && swapIQ == old(swapIQ)
      ensures |old(audioStream.value)| > 2 * buffer.Length ==>
        recorderIQBuffer == old(recorderIQBuffer) && (recorderIQBuffer != null ==> unchanged(recorderIQBuffer))
      ensures |old(audioStream.value)| <= 2 * buffer.Length ==>
        recorderIQBuffer != null && recorderIQBuffer[..] == Captured(buffer[..])
    {
      if |audioStream.value| > buffer.Length * 2 {
        return;
      }
      var n := buffer.Length / 2;
      if recorderIQBuffer == null || recorderIQBuffer.Length != n {
        recorderIQBuffer := new Complex[n](_ => Zero);
      }
      var iq := recorderIQBuffer;
      ghost var captured := Captured(buffer[..]);
      for i := 0 to n
        modifies iq
        invariant forall k :: 0 <= k < i ==> iq[k] == captured[k]
      {
        iq[i] := Complex(buffer[i * 2] as real * InputGain, buffer[i * 2 + 1] as real * InputGain);
      }
      assert iq[..] == captured;
      audioStream := Some(Fifo.Write(audioStream.value, iq[..]));
    }

    /** Releases every resource; the wave file is disposed but its reference is kept. */
    method Stop()
      modifies this`player, this`recorder, this`audioStream, this`waveFile, this`sampleRate
      ensures Consistent(State()) && ControlsKept()
      ensures State() == Stopped(old(State()))
    {
      if player.Some? {
        player := None;
      }
      if recorder.Some? {
        recorder := None;
      }
      if audioStream.Some? {
        audioStream := None;
      }
      if waveFile.Some? {
        waveFile := Some(waveFile.value.(disposed := true));
        audioStream := None;
      }
      sampleRate := 0;
    }

    /**
     * Starts a session unless one is playing. `recorderOpens` and `playerOpens`
     * say whether constructing each device succeeds; a failure is returned as
     * the exception Play rethrows.
     */
    method Play(recorderOpens: bool, playerOpens: bool) returns (r: Result<bool, DeviceError>)
      requires Valid()
      modifies this
      ensures Valid() && ControlsKept()
      ensures (State(), r) == Played(old(State()), recorderOpens, playerOpens)
    {
      if player.None? {
        var bufferSize := DeviceBufferSize(bufferSizeInMs, sampleRate);
        if waveFile.None? {
          audioStream := Some([]);
          if !recorderOpens {
            Stop();
            return Failure(RecorderOpenFailed);
          }
          recorder := Some(Device(inputDevice, sampleRate, bufferSize));
        }
        if !playerOpens {
          Stop();
          return Failure(PlayerOpenFailed);
        }
        player := Some(Device(outputDevice, sampleRate, bufferSize));
        return Success(true);
      }
      return Success(false);
    }

    method OpenDevice(inputDevice: int, outputDevice: int, sampleRate: int, bufferSizeInMs: int)
      requires Valid()
      modifies this
      ensures Valid() && ControlsKept()
      ensures State() == OpenedDevice(old(State()), inputDevice, outputDevice, sampleRate, bufferSizeInMs)
    {
      Stop();
      this.bufferSizeInMs := bufferSizeInMs;
      this.inputDevice := inputDevice;
      this.outputDevice := outputDevice;
      this.sampleRate := sampleRate;
    }

    /**
     * Binds a wave file for playback. `fileRate` is the declared rate of the file
     * when it opens and None when opening it throws; that failure is swallowed.
     */
    method OpenFile(filename: string, outputDevice: int, bufferSizeInMs: int, fileRate: Option<int>)
      requires Valid()
      modifies this
      ensures Valid() && ControlsKept()
      ensures State() == OpenedFile(old(State()), filename, outputDevice, bufferSizeInMs, fileRate)
    {
      Stop();
      this.outputDevice := outputDevice;
      this.bufferSizeInMs := bufferSizeInMs;
      match fileRate {
        case Some(rate) =>
          waveFile := Some(WaveFile(filename, rate, false));
          this.sampleRate := rate;
        case None =>
          Stop();
      }
    }
  }
}
