/**
 * The audio sink (`AudioStream`): creating the stream with its queue, the
 * sample-format dispatch, and the driver callback `on_window`, which fills each
 * whole frame of the output buffer from the queue and then sends one
 * needs-more-data pulse.
 *
 * The host, the device and `build_output_stream` are foreign calls: their
 * outcomes are parameters. The conversion `T::from_sample` is the identity on
 * the real-valued amplitudes.
 */
module Stream {
  import opened Wrappers
  import opened Queue

  /** `AudioStream::REASONABLE_BUFFER_SIZE`: the default queue capacity. */
  const ReasonableBufferSize: nat := 2048

  /** cpal's sample formats; `Unknown` stands for the formats matched by the final `_` arm. */
  datatype SampleFormat = I8 | I16 | I32 | I64 | U8 | U16 | U32 | U64 | F32 | F64 | Unknown

  /** The negotiated output configuration. */
  datatype StreamConfig = StreamConfig(sampleRate: nat, channels: nat, format: SampleFormat)

  /** How a setup step ends: a value, an `Err`, or a `todo!()` panic. */
  datatype Setup<T> = Built(value: T) | Failed | Unimplemented

  /** `stream_setup_for`: only 32-bit float output builds a stream; every other format is `todo!()`. */
  function StreamSetupFor(config: StreamConfig, buildSucceeds: bool): (r: Setup<StreamConfig>)
    ensures r.Built? <==> config.format == F32 && buildSucceeds
    ensures r.Unimplemented? <==> config.format != F32
    ensures r.Built? ==> r.value == config
  {
    match config.format
    case I8 => Unimplemented
    case I16 => Unimplemented
    case I32 => Unimplemented
    case I64 => Unimplemented
    case U8 => Unimplemented
    case U16 => Unimplemented
    case U32 => Unimplemented
    case U64 => Unimplemented
    case F32 => if buildSucceeds then Built(config) else Failed
    case F64 => Unimplemented
    case Unknown => Unimplemented
  }

  /** A request passed on to the device stream. */
  datatype StreamRequest = Start | Stop

  /** An open output stream and the queue its callback drains. */
  class AudioStream {
    const config: StreamConfig
    const queue: AudioQueue
    /** The `play()`/`pause()` requests made on the device stream, oldest first. */
    var requests: seq<StreamRequest>

    constructor (config: StreamConfig, queue: AudioQueue)
      ensures this.config == config && this.queue == queue && requests == []
    {
      this.config := config;
      this.queue := queue;
      requests := [];
    }

    /** `sample_rate()`: the rate of the negotiated configuration. */
    function SampleRate(): (rate: nat)
      ensures rate == config.sampleRate
    {
      config.sampleRate
    }

    /** `play()`: asks the device stream to start (and so to consume the queue). */
    method Play()
      modifies this
      ensures requests == old(requests) + [Start]
    {
      requests := requests + [Start];
    }

    /** `pause()`: asks the device stream to stop (and so to stop consuming the queue). */
    method Pause()
      modifies this
      ensures requests == old(requests) + [Stop]
    {
      requests := requests + [Stop];
    }
  }

  /**
   * `create_default_stream(buffer_size, ...)`: `host` is the outcome of the
   * host/device/config lookup and `buildSucceeds` that of `build_output_stream`.
   * On success the stream owns a new, empty queue of capacity `buffer_size`.
   */
  method CreateDefaultStream(bufferSize: nat, host: Option<StreamConfig>, buildSucceeds: bool)
    returns (r: Setup<AudioStream>)
    requires 0 < bufferSize
    ensures r.Built? <==> host.Some? && host.value.format == F32 && buildSucceeds
    ensures r.Unimplemented? <==> host.Some? && host.value.format != F32
    ensures r.Built? ==> && fresh(r.value) && fresh(r.value.queue)
                         && r.value.config == host.value && r.value.requests == []
                         && r.value.queue.Valid() && r.value.queue.capacity == bufferSize
                         && r.value.queue.items == []
  {
    match host
    case None => r := Failed;
    case Some(config) =>
      var queue := new AudioQueue(bufferSize);
      match StreamSetupFor(config, buildSucceeds)
      case Built(_) =>
        var stream := new AudioStream(config, queue);
        r := Built(stream);
      case Failed => r := Failed;
      case Unimplemented => r := Unimplemented;
  }

  /** The sample the `k`-th pop of a callback yields: the queue's `k`-th entry, or silence once it has run dry. */
  function Popped(items: seq<StereoSample>, k: nat): (s: StereoSample)
    ensures k < |items| ==> s == items[k]
    ensures k >= |items| ==> s == Silence
  {
    if k < |items| then items[k] else Silence
  }

  /**
   * The output buffer once the first `frames` frames of `channels` slots are
   * filled: slot 0 of frame f holds the left value of the f-th pop, slot 1 its
   * right value; every other element keeps its old value.
   */
  function FilledUpTo(out: seq<real>, channels: nat, items: seq<StereoSample>, frames: nat): (r: seq<real>)
    requires channels >= 2
    ensures |r| == |out|
  {
    seq(|out|, j requires 0 <= j < |out| =>
      if j < frames * channels && j % channels == 0 then Popped(items, j / channels).left
      else if j < frames * channels && j % channels == 1 then Popped(items, j / channels).right
      else out[j])
  }

  /** The output buffer after a callback: every whole frame filled. */
  function Filled(out: seq<real>, channels: nat, items: seq<StereoSample>): (r: seq<real>)
    requires channels >= 2
    ensures |r| == |out|
    ensures |out| < channels ==> r == out
    ensures forall j :: 0 <= j < |out| && j % channels >= 2 ==> r[j] == out[j]
  {
    FilledUpTo(out, channels, items, |out| / channels)
  }

  lemma MulAtLeast(a: int, n: nat)
    requires a >= 1
    ensures a * n >= n
  {
    if a > 1 {
      MulAtLeast(a - 1, n);
      assert a * n == (a - 1) * n + n;
    }
  }

  lemma MulMonotone(a: nat, b: nat, n: nat)
    requires a <= b
    ensures a * n <= b * n
  {
    if a < b {
      MulAtLeast(b - a, n);
      assert b * n == (b - a) * n + a * n;
    }
  }

  /** Frame `f` of a buffer with more than `f` whole frames lies inside the buffer. */
  lemma WholeFrameFits(f: nat, length: nat, channels: nat)
    requires channels >= 2 && f < length / channels
    ensures (f + 1) * channels <= length
  {
    MulMonotone(f + 1, length / channels, channels);
  }

  /** A frame that ends inside the buffer is one of its whole frames. */
  lemma FrameWithin(f: nat, length: nat, channels: nat)
    requires channels >= 1 && (f + 1) * channels <= length
    ensures f < length / channels
  {
    var d := length - (f + 1) * channels;
    assert d == (d / channels) * channels + d % channels;
    assert length == (f + 1 + d / channels) * channels + d % channels;
    DivMod(length, channels, f + 1 + d / channels, d % channels);
  }

  /** Euclidean division of `f * n + r` by `n` when `0 <= r < n`. */
  lemma DivMod(j: nat, n: nat, f: nat, r: nat)
    requires 0 <= r < n && j == f * n + r
    ensures j / n == f && j % n == r
  {
    var q, m := j / n, j % n;
    assert j == q * n + m && 0 <= m < n;
    assert (q - f) * n == r - m;
    if q > f {
      MulAtLeast(q - f, n);
    }
    if q < f {
      assert (f - q) * n == m - r;
      MulAtLeast(f - q, n);
    }
  }

  /** Filling frame `f` changes exactly its slots 0 and 1. */
  lemma FilledStep(out: seq<real>, channels: nat, items: seq<StereoSample>, f: nat)
    requires channels >= 2 && (f + 1) * channels <= |out|
    ensures var s := Popped(items, f);
      FilledUpTo(out, channels, items, f + 1)
        == FilledUpTo(out, channels, items, f)[f * channels := s.left][f * channels + 1 := s.right]
  {
    var s := Popped(items, f);
    var l := FilledUpTo(out, channels, items, f + 1);
    var r := FilledUpTo(out, channels, items, f)[f * channels := s.left][f * channels + 1 := s.right];
    forall j | 0 <= j < |out| ensures l[j] == r[j] {
      if f * channels <= j < (f + 1) * channels {
        DivMod(j, channels, f, j - f * channels);
      } else if j < f * channels {
        DivMod(j, channels, j / channels, j % channels);
      }
    }
  }

  /**
   * `on_window`: for each whole frame of `channelCount` slots, pop one sample
   * (silence when the queue is empty), write its left value to slot 0 and its
   * right value to slot 1; then send one pulse. Returns the pulses sent.
   *
   * The source writes slot 1 under the guard `channel_count > 0`, which always
   * holds inside the loop, so a one-channel frame would be indexed out of
   * bounds: this requires at least two channels (see `FillChunks`).
   */
  method OnWindow(output: array<real>, channelCount: nat, queue: AudioQueue) returns (pulses: seq<bool>)
    requires queue.Valid() && channelCount >= 2
    modifies output, queue
    ensures queue.Valid()
    ensures output[..] == Filled(old(output[..]), channelCount, old(queue.items))
    ensures queue.items == old(queue.items)[Min(output.Length / channelCount, |old(queue.items)|)..]
    ensures pulses == [true]
  {
    var frames := output.Length / channelCount;
    ghost var items := queue.items;
    ghost var before := output[..];
    var f := 0;
    while f < frames
      invariant 0 <= f <= frames && queue.Valid()
      invariant output[..] == FilledUpTo(before, channelCount, items, f)
      invariant queue.items == items[Min(f, |items|)..]
    {
      WholeFrameFits(f, output.Length, channelCount);
      var k := f * channelCount;
      var popped := queue.Pop();
      var sample := popped.UnwrapOr(Silence);
      assert sample == Popped(items, f);
      FilledStep(before, channelCount, items, f);
      ghost var prev := output[..];
      output[k] := sample.left;
      output[k + 1] := sample.right;
      assert output[..] == prev[k := sample.left][k + 1 := sample.right];
      f := f + 1;
    }
    pulses := [true];
  }

  /** Each whole frame gets the next sample's left value in slot 0 and right value in slot 1, in FIFO order. */
  lemma FilledFrames(out: seq<real>, channels: nat, items: seq<StereoSample>, f: nat)
    requires channels >= 2 && (f + 1) * channels <= |out|
    ensures var r := Filled(out, channels, items);
      r[f * channels] == Popped(items, f).left && r[f * channels + 1] == Popped(items, f).right
  {
    var n := |out| / channels;
    var k := f * channels;
    FrameWithin(f, |out|, channels);
    MulMonotone(f + 1, n, channels);
    assert (f + 1) * channels == k + channels;
    assert k + 1 < n * channels;
    DivMod(k, channels, f, 0);
    DivMod(k + 1, channels, f, 1);
    var r := Filled(out, channels, items);
    assert r[k] == Popped(items, k / channels).left;
    assert r[k + 1] == Popped(items, (k + 1) / channels).right;
  }

  /** Slots 2 and up of every frame, and the trailing `|out| % channels` elements, are left as they were. */
  lemma FilledLeavesOtherSlots(out: seq<real>, channels: nat, items: seq<StereoSample>, j: nat)
    requires channels >= 2 && j < |out|
    requires j % channels >= 2 || j >= (|out| / channels) * channels
    ensures Filled(out, channels, items)[j] == out[j]
  {
  }

  /** With an empty queue every frame is silence. */
  lemma EmptyQueueGivesSilence(out: seq<real>, channels: nat, f: nat)
    requires channels >= 2 && (f + 1) * channels <= |out|
    ensures Filled(out, channels, [])[f * channels] == 0.0 && Filled(out, channels, [])[f * channels + 1] == 0.0
  {
    FilledFrames(out, channels, [], f);
  }

  /**
   * One frame written as `on_window`'s loop body writes it: slot 0 gets the left
   * value; slot 1 gets the right value under the guard, which as written is
   * `channel_count > 0` and as intended `channel_count > 1`. `None` is an
   * out-of-bounds panic.
   */
  function WriteFrame(frame: seq<real>, s: StereoSample, intended: bool): (r: Option<seq<real>>)
    requires |frame| >= 1
    ensures r.None? <==> !intended && |frame| == 1
    ensures r.Some? ==> |r.value| == |frame| && r.value[0] == s.left && r.value[1..] == (if |frame| >= 2 then [s.right] + frame[2..] else [])
  {
    var withLeft := frame[0 := s.left];
    var guard := if intended then |frame| > 1 else |frame| > 0;
    if !guard then Some(withLeft)
    else if |frame| < 2 then None
    else Some(withLeft[1 := s.right])
  }

  /**
   * `on_window` over `chunks_exact_mut(channels)`, chunk by chunk: `None` is a
   * panic (a zero chunk size, or a frame written out of bounds); the trailing
   * partial chunk is left alone.
   */
  function FillChunks(out: seq<real>, channels: nat, items: seq<StereoSample>, intended: bool): (r: Option<seq<real>>)
    ensures r.Some? ==> |r.value| == |out|
    decreases |out|
  {
    if channels == 0 then None
    else if |out| < channels then Some(out)
    else
      var (s, rest) := PopOrSilence(items);
      match WriteFrame(out[..channels], s, intended)
      case None => None
      case Some(frame) =>
        match FillChunks(out[channels..], channels, rest, intended)
        case None => None
        case Some(tail) => Some(frame + tail)
  }

  /** Popping once and then taking the k-th pop is taking the (k+1)-th pop. */
  lemma PoppedShift(items: seq<StereoSample>, k: nat)
    ensures Popped(PopOrSilence(items).1, k) == Popped(items, k + 1)
  {
  }

  /**
   * A filled buffer is its filled first frame followed by the rest of the
   * buffer filled from the queue less its first entry.
   */
  lemma FilledSplit(out: seq<real>, channels: nat, items: seq<StereoSample>)
    requires channels >= 2 && |out| >= channels
    ensures var s := Popped(items, 0);
      Filled(out, channels, items)
        == out[..channels][0 := s.left][1 := s.right] + Filled(out[channels..], channels, PopOrSilence(items).1)
  {
    var s := Popped(items, 0);
    var frame := out[..channels][0 := s.left][1 := s.right];
    var tail := Filled(out[channels..], channels, PopOrSilence(items).1);
    var whole := Filled(out, channels, items);
    FramesAfterFirst(|out|, channels);
    forall j | 0 <= j < |out| ensures whole[j] == (frame + tail)[j] {
      if j < channels {
        DivMod(j, channels, 0, j);
      } else {
        FilledShiftAt(out, channels, items, j);
      }
    }
  }

  /** A buffer with at least one whole frame has one whole frame more than the buffer without its first frame. */
  lemma FramesAfterFirst(length: nat, channels: nat)
    requires channels >= 2 && length >= channels
    ensures length / channels == (length - channels) / channels + 1
  {
    var m := (length - channels) / channels;
    assert length - channels == m * channels + (length - channels) % channels;
    assert (m + 1) * channels == m * channels + channels;
    DivMod(length, channels, m + 1, (length - channels) % channels);
  }

  /** Slot `j` past the first frame is slot `j - channels` of the rest, filled one pop later. */
  lemma FilledShiftAt(out: seq<real>, channels: nat, items: seq<StereoSample>, j: nat)
    requires channels >= 2 && channels <= j < |out|
    requires |out| / channels == (|out| - channels) / channels + 1
    ensures Filled(out, channels, items)[j] == Filled(out[channels..], channels, PopOrSilence(items).1)[j - channels]
  {
    var j' := j - channels;
    var q := j' / channels;
    assert j' == q * channels + j' % channels;
    assert (q + 1) * channels == q * channels + channels;
    DivMod(j, channels, q + 1, j' % channels);
    PoppedShift(items, q);
    var m := (|out| - channels) / channels;
    assert (m + 1) * channels == m * channels + channels;
    assert j < (m + 1) * channels <==> j' < m * channels;
  }

  /**
   * For two or more channels the chunk-by-chunk callback never panics and
   * produces exactly `Filled`, the buffer `OnWindow` is proved to write.
   */
  lemma {:induction false} ChunksFillFrames(out: seq<real>, channels: nat, items: seq<StereoSample>)
    requires channels >= 2
    ensures FillChunks(out, channels, items, false) == Some(Filled(out, channels, items))
    decreases |out|
  {
    if |out| < channels {
      assert |out| / channels == 0;
      assert Filled(out, channels, items) == out;
    } else {
      ChunksFillFrames(out[channels..], channels, PopOrSilence(items).1);
      FilledSplit(out, channels, items);
    }
  }

  /** For two or more channels the intended guard changes nothing. */
  lemma {:induction false} IntendedAgreesOnStereo(out: seq<real>, channels: nat, items: seq<StereoSample>)
    requires channels >= 2
    ensures FillChunks(out, channels, items, true) == FillChunks(out, channels, items, false)
    decreases |out|
  {
    if |out| >= channels {
      IntendedAgreesOnStereo(out[channels..], channels, PopOrSilence(items).1);
    }
  }

  /** As written, a one-channel callback with any output at all panics on its first frame. */
  lemma MonoCallbackTraps(out: seq<real>, items: seq<StereoSample>)
    requires |out| >= 1
    ensures FillChunks(out, 1, items, false) == None
  {
  }

  /** As intended, a one-channel callback writes the left value of each pop into each slot, in FIFO order. */
  lemma {:induction false} IntendedMonoWritesLeft(out: seq<real>, items: seq<StereoSample>)
    ensures FillChunks(out, 1, items, true).Some?
    ensures forall j :: 0 <= j < |out| ==> FillChunks(out, 1, items, true).value[j] == Popped(items, j).left
    decreases |out|
  {
    if |out| >= 1 {
      var rest := PopOrSilence(items).1;
      IntendedMonoWritesLeft(out[1..], rest);
      var r := FillChunks(out, 1, items, true).value;
      forall j | 0 <= j < |out| ensures r[j] == Popped(items, j).left {
        if j > 0 {
          PoppedShift(items, j - 1);
        }
      }
    }
  }
}
