# AudioControl — a verified model of the SDR# audio controller

`SDRSharp.Radio.AudioControl` connects the audio devices of the radio to its
I/Q sample pipeline. It has two parts:

- **The session state machine.** `Stop`, `Play`, `OpenDevice` and `OpenFile`
  manage an optional wave player, wave recorder, sample FIFO and wave file. They
  also manage the integer parameters (sample rate, input and output device ids,
  buffer length in ms).
- **The two device callbacks.**
  - `PlayerFiller` renders one period. It gets I/Q samples from the wave file or
    the FIFO and lets the `BufferNeeded` hook turn them into mono audio. It then
    writes each amplitude, scaled by the gain curve `(AudioGain/10)^10`, into
    both stereo slots of the device buffer.
  - `RecorderFiller` captures one period. It drops the period when the FIFO is
    backlogged. Otherwise it de-interleaves the device buffer into I/Q samples,
    scales them by 0.01 and appends them to the FIFO.

The project is organised as follows:

- `Samples.dfy` (module `Samples`) holds the sample types and the pure conversions:
  - the gain curve, with its unity point and monotonicity;
  - the stereo duplication of the render path;
  - the de-interleaving of the capture path, with its inverse.
- `Fifo.dfy` (module `Fifo`) is the queue abstraction.
- `Lifecycle.dfy` (module `Lifecycle`) gives the session fields as a value. It
  defines the state each lifecycle operation produces (`Stopped`, `Played`,
  `OpenedDevice`, `OpenedFile`) and proves the lifecycle properties about them.
- `AudioControl.dfy` (module `Radio`) is the class `AudioControl`. Its fields
  are the source's fields. Its methods update them step by step, in the source's
  order, and are proved to end in exactly the states above. The callbacks fill
  arrays in place with the source's loops.

The external parts are modelled as follows:

- **Devices** are handles that record the device id, sample rate and period they
  were opened with.
- **The FIFO** is the sequence of its unread samples.
- **The wave file** is its path and declared rate, plus a flag recording that it
  was disposed.
- **Events outside the class become method parameters:**
  - whether constructing a device or opening a file succeeds;
  - the block a file read delivers.
- **The `BufferNeeded` hook** is an optional function. It gives the value the
  hook leaves in each slot of the audio buffer, from the I/Q block and the
  buffer as the hook found it.
- **Properties.**
  - The `AudioGain` and `SwapIQ` properties are the public fields `audioGain`
    and `swapIQ`.
  - The `SampleRate` getter is the field `sampleRate`.

Behaviour the model reproduces as the code has it:

- `Stop` disposes the wave file but clears `_audioStream` a second time instead
  of `_waveFile` (Radio/AudioControl.cs:155). The disposed file therefore stays
  bound. A later `OpenDevice` + `Play` plays that file rather than starting the
  capture loop (`OpenDeviceKeepsStaleFile`).
- A failed `OpenFile` keeps the output device and buffer length it already
  stored. It also keeps any previously bound (disposed) file.
- The capture backlog test compares the queue length with `2 * buffer.Length`.
  `buffer.Length` counts floats. The test is strict, and it fires only above
  four samples per frame of the period, not at two periods' worth.
- `Stop` resets the sample rate even on a session that is already closed.
  `Stop` is idempotent, but after `OpenDevice` it is not a no-op, because it
  resets the sample rate and marks a bound file disposed.

## Model

| member | source | states |
|---|---|---|
| `Samples.EffectiveGain` | Radio/AudioControl.cs:73 | the render gain `(AudioGain/10)^10` is never negative, is exactly 1 at the constructor default 10 and 0 at setting 0 |
| `Samples.GainStrictlyIncreasing` | Radio/AudioControl.cs:73 | the gain factor strictly increases with the setting over non-negative settings |
| `Samples.GainIgnoresSign` | Radio/AudioControl.cs:73 | a negative setting is not clamped and gives the same factor as its magnitude |
| `Samples.Amplified` | Radio/AudioControl.cs:77 | one rendered value: unchanged at gain 1, zero for a zero amplitude or gain, and of the amplitude's sign for a non-negative gain |
| `Samples.Duplicated` | Radio/AudioControl.cs:75-80 | the rendered frames: slot `j` holds amplitude `j/2` times the gain, so slots `2i` and `2i+1` both hold `audio[i] * g` |
| `Samples.DuplicatedSnoc` | Radio/AudioControl.cs:75-80 | one more loop iteration appends exactly one stereo frame to the rendered prefix |
| `Samples.DuplicatedIsMono` | Radio/AudioControl.cs:78-79 | the left and the right channel of the rendered buffer both equal the scaled amplitudes |
| `Samples.DuplicatedConstant` | Radio/AudioControl.cs:75-80 | a hook writing one constant amplitude `a` yields `a * g` in every rendered slot |
| `Samples.Captured` | Radio/AudioControl.cs:97-101 | capture yields one sample per whole frame, even slot times 0.01 as real part and odd slot times 0.01 as imaginary part |
| `Samples.Interleaved` | Radio/AudioControl.cs:97-101 | reference interleaving of I/Q samples: real part to slot `2i`, imaginary part to slot `2i+1` |
| `Samples.CapturedInterleaved` | Radio/AudioControl.cs:97-101 | capturing an interleaved buffer returns the interleaved samples scaled by 0.01, in order |
| `Fifo.Write` | Radio/AudioControl.cs:107 | the queue after a write is the old contents followed by the written samples |
| `Fifo.Read` | Radio/AudioControl.cs:68 | a read delivers exactly `n` samples, loses and reorders nothing, and zero-fills a shortfall |
| `Fifo.ReadAfterWrite` | Radio/AudioControl.cs:68 | samples come out of the queue in the order they were written |
| `Lifecycle.Consistent` | Radio/AudioControl.cs:112-212 | the session invariant: the recorder exists exactly when the queue does, only beside a player and without a file, and a file and a queue are never bound together |
| `Lifecycle.TruncDiv` | Radio/AudioControl.cs:167 | C# integer division: truncates toward zero, bounded by the divisor on both signs |
| `Lifecycle.DeviceBufferSize` | Radio/AudioControl.cs:167 | the device period is non-negative and at most `ms * rate / 1000` for a non-negative product, never positive for a negative one, and 0 when either factor is 0 |
| `Lifecycle.DeviceBufferSizeBounds` | Radio/AudioControl.cs:167 | the device period is `bufferSizeInMs * sampleRate / 1000` rounded down for non-negative parameters |
| `Lifecycle.Stopped` | Radio/AudioControl.cs:112-159 | the state Stop produces is closed and consistent, and a bound file stays bound, marked disposed |
| `Lifecycle.Played` | Radio/AudioControl.cs:161-185 | the state Play produces is consistent when the old one was; a failure leaves it closed; success leaves a player on the output device at the session rate and computed period |
| `Lifecycle.OpenedDevice` | Radio/AudioControl.cs:187-195 | the state OpenDevice produces is closed and consistent and holds the given devices, rate and buffer length |
| `Lifecycle.OpenedFile` | Radio/AudioControl.cs:197-212 | the state OpenFile produces is closed and consistent with the given output parameters; a fresh undisposed file is bound at its own rate exactly when it opened, else the rate is 0 |
| `Lifecycle.StopCloses` | Radio/AudioControl.cs:112-159 | after Stop player, recorder and queue are null and the rate is 0; device ids, buffer length and the (now disposed) file reference survive |
| `Lifecycle.StopIdempotent` | Radio/AudioControl.cs:112-159 | stopping twice leaves the same state as stopping once |
| `Lifecycle.PlayResult` | Radio/AudioControl.cs:161-185 | Play returns true exactly when no player existed and the devices opened, false exactly when a player existed, and then changes nothing |
| `Lifecycle.PlayStartsLiveDuplex` | Radio/AudioControl.cs:165-176 | without a file a successful Play creates a fresh empty queue, the recorder and the player, both with the computed period |
| `Lifecycle.PlayStartsFilePlayback` | Radio/AudioControl.cs:169-176 | with a file bound a successful Play creates only the player |
| `Lifecycle.PlayFailureStops` | Radio/AudioControl.cs:179-183 | when device construction throws, Play leaves exactly the post-state of Stop |
| `Lifecycle.OpenDeviceRecords` | Radio/AudioControl.cs:187-195 | OpenDevice leaves a closed session holding exactly the four given parameters |
| `Lifecycle.OpenDeviceThenPlay` | Radio/AudioControl.cs:187-195 | a successful Play after OpenDevice runs the player at the rate OpenDevice was given |
| `Lifecycle.OpenDeviceKeepsStaleFile` | Radio/AudioControl.cs:147-157 | a file bound earlier survives Stop and OpenDevice, so the next Play plays the disposed file without capture |
| `Lifecycle.OpenFileOutcome` | Radio/AudioControl.cs:197-212 | OpenFile never throws: on success the rate is the file's and the output parameters are stored; on failure the state is Stop's with rate 0 |
| `Lifecycle.OperationsKeepConsistent` | Radio/AudioControl.cs:112-212 | every lifecycle operation leaves either nothing open, capture+queue+player without a file, or player+file alone |
| `Radio.CaptureStep` | Radio/AudioControl.cs:85-107 | the queue after one capture period: unchanged above the threshold, else the old queue followed by the captured samples |
| `Radio.CaptureStepLength` | Radio/AudioControl.cs:85-107 | a capture period leaves the queue unchanged above the threshold, else grows it by exactly `buffer.Length/2` |
| `Radio.CaptureBoundsBacklog` | Radio/AudioControl.cs:85-88 | with a fixed period size the capture path never grows the queue beyond `2 * buffer.Length + buffer.Length/2` samples |
| `Radio.LoopbackDelivers` | Radio/AudioControl.cs:68 | the render read following a capture returns the backlog and then the captured samples, in order |
| `Radio.WriteStereo` | Radio/AudioControl.cs:73-80 | the output loop leaves the device buffer equal to the duplicated scaled amplitudes, with an odd last slot unchanged |
| `Radio.RaiseBufferNeeded` | Radio/AudioControl.cs:71 | the hook is invoked once and the audio buffer holds what it wrote |
| `Radio.AudioControl.constructor` | Radio/AudioControl.cs:28-31 | a new controller has no devices, no file, no queue, zero parameters and gain 10 |
| `Radio.AudioControl.ResizeRenderBuffers` | Radio/AudioControl.cs:52-60 | both render scratch buffers end with length `buffer.Length/2`; the audio buffer the hook finds is zeroed when reallocated and unchanged when kept |
| `Radio.AudioControl.ReadIQ` | Radio/AudioControl.cs:62-69 | the I/Q scratch buffer is filled from the file when one is bound, else from the queue, which loses what was read |
| `Radio.AudioControl.PlayerFiller` | Radio/AudioControl.cs:45-81 | with no hook nothing changes; else the scratch buffers have length `n`, the hook's output is scaled and duplicated into the device buffer, and the trailing slot is untouched |
| `Radio.AudioControl.RecorderFiller` | Radio/AudioControl.cs:83-110 | above the threshold queue and scratch buffer are unchanged; else the scratch buffer holds the captured samples and they are appended to the queue |
| `Radio.AudioControl.Stop` | Radio/AudioControl.cs:112-159 | the new state is `Stopped` of the old; scratch buffers, hook, gain and swap are untouched |
| `Radio.AudioControl.Play` | Radio/AudioControl.cs:161-185 | new state and result are `Played` of the old state and the device outcomes |
| `Radio.AudioControl.OpenDevice` | Radio/AudioControl.cs:187-195 | the new state is `OpenedDevice` of the old state and the arguments |
| `Radio.AudioControl.OpenFile` | Radio/AudioControl.cs:197-212 | the new state is `OpenedFile` of the old state, the arguments and the file outcome |

## Left out

- `WavePlayer`, `WaveRecorder`, `WaveFile` and `FifoStream<Complex>` are not part
  of this model. Devices are records of their open parameters. A file's `Read`
  is the block passed to `PlayerFiller`.
- `Fifo.Read`: the FIFO's read is modelled as zero-filling a shortfall. The real
  FIFO may block instead, and its source is not part of this model.
- Threads are not modelled. The callbacks run on audio threads concurrently with
  `Stop` and with gain updates. Here each callback is one sequential call.
- Floating point is not modelled. Samples are exact reals, so the `(float)`
  narrowing is the identity and `Math.Pow` is an exact natural power. The
  float-by-double products are exact.
- The `BufferNeeded` event's multicast and subscription mechanics are not
  modelled. It is one optional hook whose only effect is on the audio buffer.
- Exceptions from `Dispose`/`Close` inside `Stop` are not modelled. Releases
  always succeed. Device construction and file opening fail through boolean and
  `Option` parameters.
- `Lifecycle.TruncDiv`: the product `_bufferSizeInMs * _sampleRate` uses
  unbounded integers. C#'s 32-bit overflow is not modelled.
- The `BufferNeeded` hook is modelled as stateless: the same I/Q block and
  buffer always give the same audio, in every period. The demodulator behind
  the event keeps state between periods, and that state is not part of this model.
- `SwapIQ` is stored but has no behaviour, because nothing in the class reads it.
- `Radio.AudioControl.PlayerFiller` assumes that a wave file or a queue is bound
  whenever a hook is registered. In the source, the absent case is a null
  dereference that the lifecycle never reaches.
- `Radio.AudioControl.RecorderFiller` assumes that a queue is bound, as it always
  is while the recorder exists.
