/**
 * The tone generator's worker thread (`AudioGenerator::new_with`): it creates a
 * synthesizer, reports the initial frequency, then handles whatever the select
 * hands it, one arrival at a time, until a `Quit` control message:
 * Play, Pause, ChangeFrequency (followed by a Frequency event), GenerateAudio(n),
 * and the sink's needs-more-data pulse, which synthesises exactly the queue's
 * shortfall when that is at least 64 frames.
 *
 * The threads, the channels and the select are abstracted: the worker is given
 * the sequence of arrivals the select delivers, in the order it delivers them.
 */
module Generator {
  import opened Wrappers
  import opened Queue
  import opened Synthesis

  /** `AudioGeneratorInput`. */
  datatype GeneratorInput = Play | Pause | ChangeFrequency | GenerateAudio(count: nat) | Quit

  /** `AudioGeneratorEvent`. */
  datatype GeneratorEvent = Frequency(hz: real)

  /** What the select delivers: a control message (index 0) or a needs-more-data pulse (index 1). */
  datatype Arrival = Control(input: GeneratorInput) | NeedsMoreData

  /** The smallest shortfall worth synthesising for on a pulse. */
  const MinimumBatch: nat := 64

  /** The worker's state: its synthesizer and the contents of the shared queue. */
  datatype Worker = Worker(synth: Synth, items: seq<StereoSample>)

  /** The result of handling one arrival: the new state, the event sent, and whether the loop breaks. */
  datatype Handled = Handled(next: Worker, event: Option<GeneratorEvent>, quit: bool)

  /** `capacity() - len()`: how many frames the queue can take; it cannot underflow. */
  function Shortfall(capacity: nat, len: nat): (r: nat)
    requires len <= capacity
    ensures len + r == capacity
  {
    capacity - len
  }

  /** One iteration of the worker loop. */
  function Dispatch(w: Worker, capacity: nat, a: Arrival, wave: Waveform): (h: Handled)
    requires 0 < capacity && |w.items| <= capacity
    ensures |h.next.items| <= capacity
  {
    match a
    case Control(Play) => Handled(Worker(Played(w.synth), w.items), None, false)
    case Control(Pause) => Handled(Worker(Paused(w.synth), w.items), None, false)
    case Control(ChangeFrequency) =>
      var s := w.synth.(frequency := Raised(w.synth.frequency));
      Handled(Worker(s, w.items), Some(Frequency(s.frequency)), false)
    case Control(GenerateAudio(count)) =>
      var (s, q) := Generated(w.synth, w.items, capacity, count, wave);
      Handled(Worker(s, q), None, false)
    case Control(Quit) => Handled(w, None, true)
    case NeedsMoreData =>
      var shortfall := Shortfall(capacity, |w.items|);
      if shortfall >= MinimumBatch then
        var (s, q) := Generated(w.synth, w.items, capacity, shortfall, wave);
        Handled(Worker(s, q), None, false)
      else
        Handled(w, None, false)
  }

  /**
   * A pulse synthesises exactly the shortfall when it is at least 64 frames and
   * changes nothing otherwise; while playing, a pulse that synthesises leaves the
   * queue full.
   */
  lemma PulseFillsShortfall(w: Worker, capacity: nat, wave: Waveform)
    requires 0 < capacity && |w.items| <= capacity
    ensures var h, shortfall := Dispatch(w, capacity, NeedsMoreData, wave), capacity - |w.items|;
      && !h.quit && h.event == None
      && (shortfall < MinimumBatch ==> h.next == w)
      && (shortfall >= MinimumBatch ==>
            && h.next.synth == w.synth.(sampleClock := w.synth.sampleClock + shortfall)
            && (w.synth.isPlaying ==> |h.next.items| == capacity)
            && (!w.synth.isPlaying ==> h.next.items == w.items))
  {
    var shortfall := capacity - |w.items|;
    if shortfall >= MinimumBatch {
      GeneratedClosedForm(w.synth, w.items, capacity, shortfall, wave);
    }
  }

  /** ChangeFrequency raises the frequency by one percent, touches nothing else and reports the new value once. */
  lemma ChangeFrequencyReports(w: Worker, capacity: nat, wave: Waveform)
    requires 0 < capacity && |w.items| <= capacity
    ensures var h := Dispatch(w, capacity, Control(ChangeFrequency), wave);
      && !h.quit
      && h.next == Worker(w.synth.(frequency := w.synth.frequency * 1.01), w.items)
      && h.event == Some(Frequency(h.next.synth.frequency))
  {
  }

  /** Every arrival other than ChangeFrequency leaves the frequency alone and sends no event. */
  lemma DispatchKeepsFrequency(w: Worker, capacity: nat, a: Arrival, wave: Waveform)
    requires 0 < capacity && |w.items| <= capacity && a != Control(ChangeFrequency)
    ensures var h := Dispatch(w, capacity, a, wave);
      h.next.synth.frequency == w.synth.frequency && h.event == None
  {
    match a
    case Control(GenerateAudio(count)) => GenerateKeepsTime(w.synth, w.items, capacity, count, wave);
    case NeedsMoreData => PulseFillsShortfall(w, capacity, wave);
    case _ =>
  }

  /** What a run of the loop produced: the final state, the events sent, the arrivals taken, and whether it broke on Quit. */
  datatype Outcome = Outcome(final: Worker, events: seq<GeneratorEvent>, consumed: nat, quit: bool)

  /** The worker loop over the arrivals, stopping at the first Quit. */
  function Run(w: Worker, capacity: nat, arrivals: seq<Arrival>, wave: Waveform): (o: Outcome)
    requires 0 < capacity && |w.items| <= capacity
    ensures o.consumed <= |arrivals| && |o.final.items| <= capacity
    decreases |arrivals|
  {
    if arrivals == [] then Outcome(w, [], 0, false)
    else
      var h := Dispatch(w, capacity, arrivals[0], wave);
      if h.quit then Outcome(w, [], 1, true)
      else
        var o := Run(h.next, capacity, arrivals[1..], wave);
        var sent := if h.event.Some? then [h.event.value] else [];
        Outcome(o.final, sent + o.events, o.consumed + 1, o.quit)
  }

  /** The loop from arrival `i` on: dispatch arrival `i`, then stop on Quit or go on from the next state. */
  lemma RunAt(w: Worker, capacity: nat, arrivals: seq<Arrival>, i: nat, wave: Waveform)
    requires 0 < capacity && |w.items| <= capacity && i < |arrivals|
    ensures var h := Dispatch(w, capacity, arrivals[i], wave);
      var o := Run(w, capacity, arrivals[i..], wave);
      && (h.quit ==> o == Outcome(w, [], 1, true))
      && (!h.quit ==>
            var rest := Run(h.next, capacity, arrivals[i + 1..], wave);
            o == Outcome(rest.final, (if h.event.Some? then [h.event.value] else []) + rest.events, rest.consumed + 1, rest.quit))
  {
    assert arrivals[i..] != [] && arrivals[i..][0] == arrivals[i] && arrivals[i..][1..] == arrivals[i + 1..];
  }

  /** The whole thread: a new synthesizer, the initial Frequency event, then the loop. */
  function Session(sampleRate: nat, items: seq<StereoSample>, capacity: nat, arrivals: seq<Arrival>, wave: Waveform)
    : (o: Outcome)
    requires 0 < capacity && |items| <= capacity
    ensures |o.events| >= 1 && o.events[0] == Frequency(440.0)
    ensures o.consumed <= |arrivals| && |o.final.items| <= capacity
  {
    var o := Run(Worker(NewSynth(sampleRate), items), capacity, arrivals, wave);
    o.(events := [Frequency(InitialFrequency)] + o.events)
  }

  predicate NoQuit(arrivals: seq<Arrival>)
  {
    forall i :: 0 <= i < |arrivals| ==> arrivals[i] != Control(Quit)
  }

  /**
   * Quit stops the loop: everything before the first Quit is handled, in order,
   * and nothing after it is ever applied.
   */
  lemma {:induction false} QuitStopsProcessing(w: Worker, capacity: nat, before: seq<Arrival>, after: seq<Arrival>, wave: Waveform)
    requires 0 < capacity && |w.items| <= capacity && NoQuit(before)
    ensures var o := Run(w, capacity, before, wave);
      && o.consumed == |before| && !o.quit
      && Run(w, capacity, before + [Control(Quit)] + after, wave) == o.(consumed := |before| + 1, quit := true)
    decreases |before|
  {
    var all := before + [Control(Quit)] + after;
    if before == [] {
      assert all[0] == Control(Quit);
    } else {
      assert all[0] == before[0] && all[1..] == before[1..] + [Control(Quit)] + after;
      var h := Dispatch(w, capacity, before[0], wave);
      assert before[0] != Control(Quit);
      assert NoQuit(before[1..]) by {
        forall i | 0 <= i < |before[1..]| ensures before[1..][i] != Control(Quit) {
          assert before[1..][i] == before[i + 1];
        }
      }
      QuitStopsProcessing(h.next, capacity, before[1..], after, wave);
    }
  }

  /** b to the power k. */
  function Pow(b: real, k: nat): (p: real)
  {
    if k == 0 then 1.0 else b * Pow(b, k - 1)
  }

  /** The number of ChangeFrequency requests among the arrivals. */
  function ChangeRequests(arrivals: seq<Arrival>): (n: nat)
  {
    if arrivals == [] then 0
    else (if arrivals[0] == Control(ChangeFrequency) then 1 else 0) + ChangeRequests(arrivals[1..])
  }

  /** The loop sends exactly one event per ChangeFrequency it handles, and no other. */
  lemma {:induction false} RunCountsChanges(w: Worker, capacity: nat, arrivals: seq<Arrival>, wave: Waveform)
    requires 0 < capacity && |w.items| <= capacity
    ensures var o := Run(w, capacity, arrivals, wave);
      |o.events| == ChangeRequests(arrivals[..o.consumed])
    decreases |arrivals|
  {
    var o := Run(w, capacity, arrivals, wave);
    if arrivals != [] {
      var h := Dispatch(w, capacity, arrivals[0], wave);
      if h.quit {
        assert arrivals[..1] == [Control(Quit)];
        assert ChangeRequests(arrivals[..1]) == ChangeRequests([]) + 0;
      } else {
        var rest := Run(h.next, capacity, arrivals[1..], wave);
        RunCountsChanges(h.next, capacity, arrivals[1..], wave);
        assert arrivals[..o.consumed] == [arrivals[0]] + arrivals[1..][..rest.consumed];
        if arrivals[0] != Control(ChangeFrequency) {
          DispatchKeepsFrequency(w, capacity, arrivals[0], wave);
        }
      }
    }
  }

  /** `frequency` after `k` calls of `change_frequency`. */
  function RaisedTimes(frequency: real, k: nat): (r: real)
    ensures frequency > 0.0 ==> r >= frequency > 0.0
    ensures frequency > 0.0 && k > 0 ==> r > frequency
    decreases k
  {
    if k == 0 then frequency else RaisedTimes(Raised(frequency), k - 1)
  }

  /** Raising f once and then k more times is raising it k + 1 times. */
  lemma PowStep(f: real, k: nat)
    ensures (f * 1.01) * Pow(1.01, k) == f * Pow(1.01, k + 1)
  {
  }

  /** k calls of `change_frequency` multiply the frequency by 1.01^k. */
  lemma {:induction false} RaisedTimesIsPower(frequency: real, k: nat)
    ensures RaisedTimes(frequency, k) == frequency * Pow(1.01, k)
    decreases k
  {
    if k > 0 {
      RaisedTimesIsPower(Raised(frequency), k - 1);
      PowStep(frequency, k - 1);
    }
  }

  /**
   * Each Frequency event carries the frequency after its change: starting from
   * f, the k-th event reports f raised k + 1 times, and the final frequency is
   * f raised once per event.
   */
  lemma {:induction false} RunReportsEachChange(w: Worker, capacity: nat, arrivals: seq<Arrival>, wave: Waveform)
    requires 0 < capacity && |w.items| <= capacity
    ensures var o := Run(w, capacity, arrivals, wave);
      && (forall k :: 0 <= k < |o.events| ==> o.events[k].hz == RaisedTimes(w.synth.frequency, k + 1))
      && o.final.synth.frequency == RaisedTimes(w.synth.frequency, |o.events|)
    decreases |arrivals|
  {
    var o := Run(w, capacity, arrivals, wave);
    if arrivals != [] {
      var h := Dispatch(w, capacity, arrivals[0], wave);
      if !h.quit {
        var rest := Run(h.next, capacity, arrivals[1..], wave);
        RunReportsEachChange(h.next, capacity, arrivals[1..], wave);
        var f, f' := w.synth.frequency, h.next.synth.frequency;
        if arrivals[0] == Control(ChangeFrequency) {
          assert f' == Raised(f);
          assert o.events == [Frequency(f')] + rest.events;
          forall k | 0 <= k < |o.events| ensures o.events[k].hz == RaisedTimes(f, k + 1) {
            if k > 0 {
              assert o.events[k] == rest.events[k - 1];
            }
          }
        } else {
          DispatchKeepsFrequency(w, capacity, arrivals[0], wave);
          assert o.events == rest.events;
        }
      }
    }
  }

  /**
   * The thread reports the initial 440 Hz, then one Frequency event per handled
   * ChangeFrequency; the last event it sent always carries the current frequency.
   */
  lemma SessionReportsFrequency(sampleRate: nat, items: seq<StereoSample>, capacity: nat, arrivals: seq<Arrival>, wave: Waveform)
    requires 0 < capacity && |items| <= capacity
    ensures var o := Session(sampleRate, items, capacity, arrivals, wave);
      && o.events[0] == Frequency(440.0)
      && |o.events| == 1 + ChangeRequests(arrivals[..o.consumed])
      && (forall k :: 0 <= k < |o.events| ==> o.events[k].hz == 440.0 * Pow(1.01, k))
      && o.events[|o.events| - 1].hz == o.final.synth.frequency
  {
    var w := Worker(NewSynth(sampleRate), items);
    RunCountsChanges(w, capacity, arrivals, wave);
    RunReportsEachChange(w, capacity, arrivals, wave);
    var o := Session(sampleRate, items, capacity, arrivals, wave);
    forall k | 0 <= k < |o.events| ensures o.events[k].hz == 440.0 * Pow(1.01, k) {
      RaisedTimesIsPower(440.0, k);
    }
  }

  /** One iteration of the worker loop, on the synthesizer object and the shared queue. */
  method HandleArrival(synth: Synthesizer, queue: AudioQueue, a: Arrival, wave: Waveform)
    returns (event: Option<GeneratorEvent>, quit: bool)
    requires queue.Valid()
    modifies synth, queue
    ensures queue.Valid()
    ensures Handled(Worker(synth.State(), queue.items), event, quit)
         == Dispatch(Worker(old(synth.State()), old(queue.items)), queue.capacity, a, wave)
  {
    event, quit := None, false;
    match a
    case Control(input) =>
      match input {
        case Play => synth.Play();
        case Pause => synth.Pause();
        case ChangeFrequency =>
          synth.ChangeFrequency();
          event := Some(Frequency(synth.frequency));
        case GenerateAudio(count) => synth.GenerateAudio(count, queue, wave);
        case Quit => quit := true;
      }
    case NeedsMoreData =>
      var shortfall := queue.capacity - queue.Len();
      if shortfall >= MinimumBatch {
        synth.GenerateAudio(shortfall, queue, wave);
      }
  }

  /**
   * The generator thread's body: the initial Frequency event, then the loop until
   * Quit. Returns the events sent, the arrivals taken and whether it ended on Quit.
   */
  method GeneratorThread(sampleRate: nat, queue: AudioQueue, arrivals: seq<Arrival>, wave: Waveform)
    returns (events: seq<GeneratorEvent>, consumed: nat, quit: bool)
    requires queue.Valid()
    modifies queue
    ensures queue.Valid()
    ensures var o := Session(sampleRate, old(queue.items), queue.capacity, arrivals, wave);
      && events == o.events && consumed == o.consumed && quit == o.quit
      && queue.items == o.final.items
  {
    var synth := new Synthesizer.NewWith(sampleRate);
    events := [Frequency(synth.frequency)];
    ghost var whole := Session(sampleRate, old(queue.items), queue.capacity, arrivals, wave);
    var i := 0;
    quit := false;
    while i < |arrivals|
      invariant 0 <= i <= |arrivals| && queue.Valid()
      invariant var o := Run(Worker(synth.State(), queue.items), queue.capacity, arrivals[i..], wave);
        whole == Outcome(o.final, events + o.events, i + o.consumed, o.quit)
    {
      ghost var before := Worker(synth.State(), queue.items);
      RunAt(before, queue.capacity, arrivals, i, wave);
      var event, q := HandleArrival(synth, queue, arrivals[i], wave);
      if q {
        assert events + [] == events;
        quit := true;
        i := i + 1;
        break;
      }
      ghost var sent := if event.Some? then [event.value] else [];
      ghost var rest := Run(Worker(synth.State(), queue.items), queue.capacity, arrivals[i + 1..], wave);
      assert events + (sent + rest.events) == (events + sent) + rest.events;
      if event.Some? {
        events := events + [event.value];
      }
      i := i + 1;
    }
    consumed := i;
  }
}
