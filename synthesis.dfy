/**
 * The tone synthesizer (`Synthesizer`): a sample clock, a frequency and a
 * play/pause flag, updated in place, plus `generate_audio`, which force-pushes
 * one stereo frame per iteration into the shared queue while playing and ticks
 * the clock on every iteration.
 *
 * The value of a frame comes from `make_sound`, an f32 sine of the clock, the
 * frequency and the sample rate; here it is the `Waveform` parameter.
 */
module Synthesis {
  import opened Queue

  /** `make_sound`: the amplitude for (sample clock, frequency, sample rate). */
  type Waveform = (nat, real, nat) -> real

  /** The frequency a new synthesizer starts at, in Hz. */
  const InitialFrequency: real := 440.0

  /** The synthesizer's fields as one value. */
  datatype Synth = Synth(sampleRate: nat, sampleClock: nat, frequency: real, isPlaying: bool)

  /** `Synthesizer::new_with`: clock at zero, 440 Hz, playing. */
  function NewSynth(sampleRate: nat): (s: Synth)
    ensures s.sampleClock == 0 && s.frequency == 440.0 && s.isPlaying
    ensures s.sampleRate == sampleRate
  {
    Synth(sampleRate, 0, InitialFrequency, true)
  }

  /** `play`: only the play flag changes. */
  function Played(s: Synth): (r: Synth)
    ensures r.isPlaying
    ensures r.sampleRate == s.sampleRate && r.sampleClock == s.sampleClock && r.frequency == s.frequency
  {
    s.(isPlaying := true)
  }

  /** `pause`: only the play flag changes. */
  function Paused(s: Synth): (r: Synth)
    ensures !r.isPlaying
    ensures r.sampleRate == s.sampleRate && r.sampleClock == s.sampleClock && r.frequency == s.frequency
  {
    s.(isPlaying := false)
  }

  /** `change_frequency`: one percent up; a positive frequency grows and stays positive. */
  function Raised(frequency: real): (r: real)
    ensures frequency > 0.0 ==> r > frequency > 0.0
  {
    frequency * 1.01
  }

  /** The synthesizer with its clock `n` ticks further on; nothing else changes. */
  function Advanced(s: Synth, n: nat): (r: Synth)
    ensures r.sampleClock == s.sampleClock + n
    ensures r.sampleRate == s.sampleRate && r.frequency == s.frequency && r.isPlaying == s.isPlaying
  {
    s.(sampleClock := s.sampleClock + n)
  }

  /** The frame synthesised at the current clock: the same amplitude on both channels. */
  function FrameAt(s: Synth, wave: Waveform): (f: StereoSample)
    ensures f.left == f.right == wave(s.sampleClock, s.frequency, s.sampleRate)
  {
    var amplitude := wave(s.sampleClock, s.frequency, s.sampleRate);
    StereoSample(amplitude, amplitude)
  }

  /** The `count` frames synthesised from clock `s.sampleClock` on, oldest first. */
  function Frames(s: Synth, count: nat, wave: Waveform): (r: seq<StereoSample>)
    ensures |r| == count
    decreases count
  {
    if count == 0 then [] else [FrameAt(s, wave)] + Frames(Advanced(s, 1), count - 1, wave)
  }

  /** The `i`-th frame is the one synthesised `i` ticks after the start. */
  lemma {:induction false} FrameIndex(s: Synth, count: nat, wave: Waveform, i: nat)
    requires i < count
    ensures Frames(s, count, wave)[i] == FrameAt(Advanced(s, i), wave)
    decreases count
  {
    if i > 0 {
      FrameIndex(Advanced(s, 1), count - 1, wave, i - 1);
      assert Advanced(Advanced(s, 1), i - 1) == Advanced(s, i);
    }
  }

  /**
   * `generate_audio(count)` followed one iteration at a time, as the loop runs:
   * the new synthesizer and the new queue contents.
   */
  function Generated(s: Synth, items: seq<StereoSample>, capacity: nat, count: nat, wave: Waveform)
    : (r: (Synth, seq<StereoSample>))
    requires 0 < capacity && |items| <= capacity
    ensures |r.1| <= capacity
    decreases count
  {
    if count == 0 then (s, items)
    else
      var pushed := if s.isPlaying then ForcePushed(items, capacity, FrameAt(s, wave)) else items;
      Generated(Advanced(s, 1), pushed, capacity, count - 1, wave)
  }

  /** Force-pushing `f` and then keeping the newest entries of what follows keeps the newest of the whole history. */
  lemma PushThenNewest(items: seq<StereoSample>, capacity: nat, f: StereoSample, rest: seq<StereoSample>)
    requires 0 < capacity && |items| <= capacity
    ensures Newest(ForcePushed(items, capacity, f) + rest, capacity) == Newest(items + ([f] + rest), capacity)
  {
    assert ForcePushed(items, capacity, f) == Newest(items + [f], capacity);
    NewestOfNewest(items + [f], rest, capacity);
    assert (items + [f]) + rest == items + ([f] + rest);
  }

  /**
   * What `generate_audio(count)` amounts to: the clock advances by exactly
   * `count` whether or not it plays; while playing the queue ends up holding the
   * newest `capacity` entries of its old contents followed by the `count` new
   * frames; while paused the queue is untouched.
   */
  lemma {:induction false} GeneratedClosedForm(s: Synth, items: seq<StereoSample>, capacity: nat, count: nat, wave: Waveform)
    requires 0 < capacity && |items| <= capacity
    ensures Generated(s, items, capacity, count, wave)
         == (Advanced(s, count), if s.isPlaying then Newest(items + Frames(s, count, wave), capacity) else items)
    decreases count
  {
    if count == 0 {
      assert items + Frames(s, 0, wave) == items;
    } else {
      var f := FrameAt(s, wave);
      var next := Advanced(s, 1);
      var pushed := if s.isPlaying then ForcePushed(items, capacity, f) else items;
      GeneratedClosedForm(next, pushed, capacity, count - 1, wave);
      assert Advanced(next, count - 1) == Advanced(s, count);
      if s.isPlaying {
        PushThenNewest(items, capacity, f, Frames(next, count - 1, wave));
      }
    }
  }

  /** `generate_audio(count)` advances the clock by exactly `count`, playing or paused, and keeps the other fields. */
  lemma GenerateKeepsTime(s: Synth, items: seq<StereoSample>, capacity: nat, count: nat, wave: Waveform)
    requires 0 < capacity && |items| <= capacity
    ensures Generated(s, items, capacity, count, wave).0 == s.(sampleClock := s.sampleClock + count)
  {
    GeneratedClosedForm(s, items, capacity, count, wave);
  }

  /** While paused `generate_audio` pushes nothing: the queue is left exactly as it was. */
  lemma GeneratePausedPushesNothing(s: Synth, items: seq<StereoSample>, capacity: nat, count: nat, wave: Waveform)
    requires 0 < capacity && |items| <= capacity && !s.isPlaying
    ensures Generated(s, items, capacity, count, wave).1 == items
  {
    GeneratedClosedForm(s, items, capacity, count, wave);
  }

  /** Every synthesised frame carries the same value on the left and the right channel. */
  lemma {:induction false} FramesAreMono(s: Synth, count: nat, wave: Waveform)
    ensures forall e :: e in Frames(s, count, wave) ==> e.left == e.right
    decreases count
  {
    if count > 0 {
      FramesAreMono(Advanced(s, 1), count - 1, wave);
    }
  }

  /**
   * While playing, `generate_audio(count)` force-pushes `count` frames: the
   * queue ends with min(capacity, old length + count) entries, and its newest
   * min(capacity, count) entries are the newest of the new frames, in clock
   * order.
   */
  lemma GeneratePlayingPushesFrames(s: Synth, items: seq<StereoSample>, capacity: nat, count: nat, wave: Waveform)
    requires 0 < capacity && |items| <= capacity && s.isPlaying
    ensures var q, m := Generated(s, items, capacity, count, wave).1, Min(capacity, count);
      && |q| == Min(capacity, |items| + count)
      && q[|q| - m..] == Frames(s, count, wave)[count - m..]
  {
    GeneratedClosedForm(s, items, capacity, count, wave);
    NewestOfPushed(items, Frames(s, count, wave), capacity);
  }

  /** The synthesizer, whose fields the generator thread updates in place. */
  class Synthesizer {
    var sampleRate: nat
    var sampleClock: nat
    var frequency: real
    var isPlaying: bool

    function State(): (s: Synth)
      reads this
    {
      Synth(sampleRate, sampleClock, frequency, isPlaying)
    }

    constructor NewWith(sampleRate: nat)
      ensures State() == NewSynth(sampleRate)
      ensures sampleClock == 0 && frequency == 440.0 && isPlaying
    {
      this.sampleRate := sampleRate;
      sampleClock := 0;
      frequency := InitialFrequency;
      isPlaying := true;
    }

    method Play()
      modifies this
      ensures State() == Played(old(State()))
    {
      isPlaying := true;
    }

    method Pause()
      modifies this
      ensures State() == Paused(old(State()))
    {
      isPlaying := false;
    }

    method ChangeFrequency()
      modifies this
      ensures State() == old(State()).(frequency := Raised(old(frequency)))
    {
      frequency := frequency * 1.01;
    }

    /** `make_sound(freq)` at the current clock and sample rate. */
    function MakeSound(wave: Waveform, freq: real): (a: real)
      reads this
      ensures a == FrameAt(State().(frequency := freq), wave).left == FrameAt(State().(frequency := freq), wave).right
    {
      wave(sampleClock, freq, sampleRate)
    }

    method Tick()
      modifies this
      ensures State() == Advanced(old(State()), 1)
    {
      sampleClock := sampleClock + 1;
    }

    method GenerateAudio(count: nat, queue: AudioQueue, wave: Waveform)
      requires queue.Valid()
      modifies this, queue
      ensures queue.Valid()
      ensures (State(), queue.items) == Generated(old(State()), old(queue.items), queue.capacity, count, wave)
    {
      var i := 0;
      while i < count
        invariant 0 <= i <= count && queue.Valid()
        invariant Generated(State(), queue.items, queue.capacity, count - i, wave)
               == Generated(old(State()), old(queue.items), queue.capacity, count, wave)
      {
        var sample := if isPlaying then MakeSound(wave, frequency) else 0.0;
        if isPlaying {
          var evicted := queue.ForcePush(StereoSample(sample, sample));
        }
        Tick();
        i := i + 1;
      }
    }
  }
}
