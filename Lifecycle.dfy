/**
 * The session state of the audio controller as a value, and the effect of each
 * public lifecycle operation on it. The class in module Radio performs these
 * operations field by field and is proved to end in exactly these states.
 */
module Lifecycle {

  import opened Wrappers
  import opened Samples

  /** An opened audio device: the id, rate and period size it was opened with. */
  datatype Device = Device(deviceId: int, sampleRate: int, bufferSize: int)

  /** An opened wave file; `disposed` records that it was released. */
  datatype WaveFile = WaveFile(path: string, sampleRate: int, disposed: bool)

  /** What device construction in Play threw. */
  datatype DeviceError = RecorderOpenFailed | PlayerOpenFailed

  datatype Mode = Closed | LiveDuplex | FilePlayback

  /**
   * The lifecycle fields of the controller: the optional player, recorder,
   * queue (its unread samples) and wave file, and the integer parameters.
   */
  datatype Session = Session(
    player: Option<Device>,
    recorder: Option<Device>,
    audioStream: Option<seq<Complex>>,
    waveFile: Option<WaveFile>,
    sampleRate: int,
    inputDevice: int,
    outputDevice: int,
    bufferSizeInMs: int)

  /** The state of a newly constructed controller. */
  const Initial: Session := Session(None, None, None, None, 0, 0, 0, 0)

  function ModeOf(s: Session): Mode
  {
    if s.player.None? then Closed
    else if s.recorder.Some? then LiveDuplex
    else FilePlayback
  }

  /**
   * The combinations of resources the operations can produce: nothing open,
   * capture + queue + render without a file, or render from a file alone.
   */
  predicate Consistent(s: Session)
    ensures Consistent(s) ==> (s.recorder.Some? <==> s.audioStream.Some?)
    ensures Consistent(s) ==> (s.recorder.Some? ==> s.player.Some? && s.waveFile.None?)
    ensures Consistent(s) ==> !(s.waveFile.Some? && s.audioStream.Some?)
  {
    match ModeOf(s)
    case Closed => s.recorder.None? && s.audioStream.None?
    case LiveDuplex => s.audioStream.Some? && s.waveFile.None?
    case FilePlayback => s.audioStream.None? && s.waveFile.Some?
  }

  /** Integer division truncating toward zero, as C# divides `int`s. */
  function TruncDiv(a: int, d: int): (q: int)
    requires 0 < d
    ensures 0 <= a ==> 0 <= q && q * d <= a < q * d + d
    ensures a < 0 ==> q <= 0 && q * d - d < a <= q * d
  {
    if 0 <= a then FloorDivBounds(a, d); a / d
    else FloorDivBounds(-a, d); -((-a) / d)
  }

  lemma FloorDivBounds(a: nat, d: int)
    requires 0 < d
    ensures 0 <= a / d && (a / d) * d <= a < (a / d) * d + d
  {
    assert a == d * (a / d) + a % d;
  }

  /** The period, in frames, that Play asks both devices for. */
  function DeviceBufferSize(bufferSizeInMs: int, sampleRate: int): (size: int)
    ensures 0 <= bufferSizeInMs * sampleRate ==> 0 <= size && size * 1000 <= bufferSizeInMs * sampleRate
    ensures bufferSizeInMs * sampleRate < 0 ==> size <= 0
    ensures bufferSizeInMs == 0 || sampleRate == 0 ==> size == 0
  {
    TruncDiv(bufferSizeInMs * sampleRate, 1000)
  }

  function Disposed(f: Option<WaveFile>): Option<WaveFile>
  {
    if f.Some? then Some(f.value.(disposed := true)) else None
  }

  /**
   * Stop: player, recorder and queue released and cleared, the wave file
   * disposed but still referenced, and the sample rate reset.
   */
  function Stopped(s: Session): (t: Session)
    ensures ModeOf(t) == Closed && Consistent(t)
    ensures t.waveFile.Some? <==> s.waveFile.Some?
    ensures t.waveFile.Some? ==> t.waveFile.value.disposed
  {
    s.(player := None, recorder := None, audioStream := None,
       waveFile := Disposed(s.waveFile), sampleRate := 0)
  }

  /**
   * Play, given whether constructing the recorder and the player succeeds:
   * the new state and what the call returns or throws.
   */
  function Played(s: Session, recorderOpens: bool, playerOpens: bool): (r: (Session, Result<bool, DeviceError>))
    ensures Consistent(s) ==> Consistent(r.0)
    ensures r.1.Failure? ==> ModeOf(r.0) == Closed
    ensures r.1 == Success(true) ==> r.0.player == Some(Device(s.outputDevice, s.sampleRate, DeviceBufferSize(s.bufferSizeInMs, s.sampleRate)))
    ensures r.1.Success? ==> r.0.player.Some?
  {
    if s.player.Some? then (s, Success(false))
    else
      var size := DeviceBufferSize(s.bufferSizeInMs, s.sampleRate);
      if s.waveFile.None? && !recorderOpens then
        (Stopped(s.(audioStream := Some([]))), Failure(RecorderOpenFailed))
      else
        var withCapture :=
          if s.waveFile.None? then s.(audioStream := Some([]), recorder := Some(Device(s.inputDevice, s.sampleRate, size)))
          else s;
        if !playerOpens then (Stopped(withCapture), Failure(PlayerOpenFailed))
        else (withCapture.(player := Some(Device(s.outputDevice, s.sampleRate, size))), Success(true))
  }

  /** OpenDevice: stop, then record the four parameters. */
  function OpenedDevice(s: Session, inputDevice: int, outputDevice: int, sampleRate: int, bufferSizeInMs: int): (t: Session)
    ensures ModeOf(t) == Closed && Consistent(t)
    ensures t.inputDevice == inputDevice && t.outputDevice == outputDevice
    ensures t.sampleRate == sampleRate && t.bufferSizeInMs == bufferSizeInMs
  {
    Stopped(s).(bufferSizeInMs := bufferSizeInMs, inputDevice := inputDevice,
                outputDevice := outputDevice, sampleRate := sampleRate)
  }

  /**
   * OpenFile, given the declared sample rate of the file when it opens and None
   * when opening it throws: stop, record the output parameters, bind the file,
   * and stop once more if the file could not be opened.
   */
  function OpenedFile(s: Session, path: string, outputDevice: int, bufferSizeInMs: int, fileRate: Option<int>): (t: Session)
    ensures ModeOf(t) == Closed && Consistent(t)
    ensures t.outputDevice == outputDevice && t.bufferSizeInMs == bufferSizeInMs
    ensures fileRate.Some? <==> t.waveFile.Some? && !t.waveFile.value.disposed
    ensures fileRate.Some? ==> t.waveFile == Some(WaveFile(path, fileRate.value, false)) && t.sampleRate == fileRate.value
    ensures fileRate.None? ==> t.sampleRate == 0
  {
    var prepared := Stopped(s).(outputDevice := outputDevice, bufferSizeInMs := bufferSizeInMs);
    match fileRate
    case Some(rate) => prepared.(waveFile := Some(WaveFile(path, rate, false)), sampleRate := rate)
    case None => Stopped(prepared)
  }

  // ---------------------------------------------------------------------------
  // Stop

  /** After Stop the session is closed with no rate; the parameters survive and the file reference is kept. */
  lemma StopCloses(s: Session)
    ensures var t := Stopped(s);
      && ModeOf(t) == Closed && Consistent(t)
      && t.player.None? && t.recorder.None? && t.audioStream.None? && t.sampleRate == 0
      && t.inputDevice == s.inputDevice && t.outputDevice == s.outputDevice
      && t.bufferSizeInMs == s.bufferSizeInMs
      && t.waveFile.Some? == s.waveFile.Some?
      && (t.waveFile.Some? ==> t.waveFile.value == s.waveFile.value.(disposed := true))
  {
  }

  /** Stopping twice is stopping once. */
  lemma StopIdempotent(s: Session)
    ensures Stopped(Stopped(s)) == Stopped(s)
  {
  }

  // ---------------------------------------------------------------------------
  // Play

  /** Play reports a new session exactly when none was playing and the devices opened; a second Play changes nothing. */
  lemma PlayResult(s: Session, recorderOpens: bool, playerOpens: bool)
    ensures var (t, r) := Played(s, recorderOpens, playerOpens);
      && (r == Success(true) <==> s.player.None? && playerOpens && (s.waveFile.Some? || recorderOpens))
      && (r == Success(false) <==> s.player.Some?)
      && (r == Success(false) ==> t == s)
  {
  }

  /** Without a file, a successful Play opens a fresh empty queue, the recorder and the player. */
  lemma PlayStartsLiveDuplex(s: Session, recorderOpens: bool, playerOpens: bool)
    requires s.player.None? && s.waveFile.None?
    requires Played(s, recorderOpens, playerOpens).1 == Success(true)
    ensures var t := Played(s, recorderOpens, playerOpens).0;
      var size := DeviceBufferSize(s.bufferSizeInMs, s.sampleRate);
      && ModeOf(t) == LiveDuplex
      && t == s.(audioStream := Some([]),
                 recorder := Some(Device(s.inputDevice, s.sampleRate, size)),
                 player := Some(Device(s.outputDevice, s.sampleRate, size)))
  {
  }

  /** With a file bound, a successful Play opens only the player. */
  lemma PlayStartsFilePlayback(s: Session, recorderOpens: bool, playerOpens: bool)
    requires s.player.None? && s.waveFile.Some?
    requires Played(s, recorderOpens, playerOpens).1 == Success(true)
    ensures var t := Played(s, recorderOpens, playerOpens).0;
      t == s.(player := Some(Device(s.outputDevice, s.sampleRate, DeviceBufferSize(s.bufferSizeInMs, s.sampleRate))))
  {
  }

  /** When device construction throws, Play has stopped the session before rethrowing. */
  lemma PlayFailureStops(s: Session, recorderOpens: bool, playerOpens: bool)
    requires Played(s, recorderOpens, playerOpens).1.Failure?
    ensures Played(s, recorderOpens, playerOpens).0 == Stopped(s)
  {
  }

  /** The period handed to the devices is the buffer length in ms at the sample rate, rounded toward zero. */
  lemma DeviceBufferSizeBounds(bufferSizeInMs: int, sampleRate: int)
    requires 0 <= bufferSizeInMs && 0 <= sampleRate
    ensures var size := DeviceBufferSize(bufferSizeInMs, sampleRate);
      0 <= size && size * 1000 <= bufferSizeInMs * sampleRate < size * 1000 + 1000
  {
    assert 0 <= bufferSizeInMs * sampleRate;
  }

  // ---------------------------------------------------------------------------
  // OpenDevice and OpenFile

  /** OpenDevice leaves a closed session holding exactly the given parameters. */
  lemma OpenDeviceRecords(s: Session, inputDevice: int, outputDevice: int, sampleRate: int, bufferSizeInMs: int)
    ensures var t := OpenedDevice(s, inputDevice, outputDevice, sampleRate, bufferSizeInMs);
      && ModeOf(t) == Closed && Consistent(t)
      && t.inputDevice == inputDevice && t.outputDevice == outputDevice
      && t.sampleRate == sampleRate && t.bufferSizeInMs == bufferSizeInMs
      && t.player.None? && t.recorder.None? && t.audioStream.None?
  {
  }

  /** A Play after OpenDevice runs at the rate OpenDevice was given. */
  lemma OpenDeviceThenPlay(s: Session, inputDevice: int, outputDevice: int, sampleRate: int, bufferSizeInMs: int,
                           recorderOpens: bool, playerOpens: bool)
    requires var o := OpenedDevice(s, inputDevice, outputDevice, sampleRate, bufferSizeInMs);
      Played(o, recorderOpens, playerOpens).1 == Success(true)
    ensures var t := Played(OpenedDevice(s, inputDevice, outputDevice, sampleRate, bufferSizeInMs), recorderOpens, playerOpens).0;
      && t.sampleRate == sampleRate
      && t.player == Some(Device(outputDevice, sampleRate, DeviceBufferSize(bufferSizeInMs, sampleRate)))
  {
  }

  /**
   * A wave file opened earlier survives Stop and OpenDevice, so a later Play
   * plays the disposed file instead of starting the capture loop.
   */
  lemma OpenDeviceKeepsStaleFile(s: Session, inputDevice: int, outputDevice: int, sampleRate: int, bufferSizeInMs: int,
                                 recorderOpens: bool, playerOpens: bool)
    requires s.waveFile.Some? && playerOpens
    ensures var t := Played(OpenedDevice(s, inputDevice, outputDevice, sampleRate, bufferSizeInMs), recorderOpens, playerOpens).0;
      && ModeOf(t) == FilePlayback && t.recorder.None? && t.audioStream.None?
      && t.waveFile == Some(s.waveFile.value.(disposed := true))
  {
  }

  /**
   * OpenFile never throws. With the file opened the session adopts its rate and
   * the output parameters; otherwise it is stopped, with no rate, and still keeps
   * the output parameters and whatever file reference it held before.
   */
  lemma OpenFileOutcome(s: Session, path: string, outputDevice: int, bufferSizeInMs: int, fileRate: Option<int>)
    ensures var t := OpenedFile(s, path, outputDevice, bufferSizeInMs, fileRate);
      && ModeOf(t) == Closed && Consistent(t)
      && t.outputDevice == outputDevice && t.bufferSizeInMs == bufferSizeInMs
      && t.inputDevice == s.inputDevice
      && (fileRate.Some? ==> t.sampleRate == fileRate.value && t.waveFile == Some(WaveFile(path, fileRate.value, false)))
      && (fileRate.None? ==> t == Stopped(s).(outputDevice := outputDevice, bufferSizeInMs := bufferSizeInMs))
  {
  }

  // ---------------------------------------------------------------------------
  // The session invariant

  /** Every lifecycle operation keeps the resources in one of the three consistent combinations. */
  lemma OperationsKeepConsistent(s: Session, recorderOpens: bool, playerOpens: bool,
                                 inputDevice: int, outputDevice: int, sampleRate: int, bufferSizeInMs: int,
                                 path: string, fileRate: Option<int>)
    requires Consistent(s)
    ensures Consistent(Stopped(s))
    ensures Consistent(Played(s, recorderOpens, playerOpens).0)
    ensures Consistent(OpenedDevice(s, inputDevice, outputDevice, sampleRate, bufferSizeInMs))
    ensures Consistent(OpenedFile(s, path, outputDevice, bufferSizeInMs, fileRate))
  {
  }
}
