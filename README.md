# audio_prototype: a verified model of the sample pipeline

This project models the sequential logic of a small Rust audio prototype.

- A tone generator runs on its own thread. It synthesises stereo frames into a bounded shared queue.
- An audio sink drains that queue from the driver callback `on_window`. After each callback it sends a "needs more data" pulse.
- The generator answers a pulse by synthesising the queue's shortfall, but only when that shortfall is at least 64 frames.
- A GUI subscription bridges the app and the sink. It is an unfold over four states: Start, Ready, Ending and Idle. A worker thread maps app inputs onto the stream.

The modules follow the source files:

- `Queue` (queue.dfy) is the `AudioQueue`. This is crossbeam's `ArrayQueue<StereoSample>`, reduced to its sequential behaviour: its contents (oldest first) plus a capacity fixed at creation. It has `force_push`, `pop().unwrap_or_default()`, `len` and `capacity`.
- `Synthesis` (synthesis.dfy) is the `Synthesizer` from `src/generator.rs`.
  - The value `Synth` captures its fields, and pure functions give each operation's effect.
  - The class `Synthesizer` updates the fields in place. Its methods are proved against those functions.
  - `generate_audio` is proved in closed form.
  - `src/synthesizer.rs` is a verbatim duplicate of the same struct: it takes the queue by value instead of by reference. It is modelled by the same class, and its rows below cite both files.
- `Generator` (generator.dfy) is the worker thread in `AudioGenerator::new_with`.
  - It has a pure one-arrival step `Dispatch`, the loop `Run`, and the whole thread `Session`.
  - `HandleArrival` and `GeneratorThread` are the imperative methods over the `Synthesizer` object and the shared queue. They are proved equal to those functions.
- `Stream` (stream.dfy) is `AudioStream`.
  - It covers the default buffer size, the sample-format dispatch of `stream_setup_for` and `create_default_stream`.
  - It also covers `on_window`, which is proved as an in-place method over an `array`. `FillChunks` restates `on_window` chunk by chunk, with the guard as written and as intended, to expose the mono finding below.
- `Subscription` (subscription.dfy) is `AudioInterfaceSubscription`.
  - `Unfold` is the transition function. `Session` iterates it over a sequence of arrivals at the select.
  - `Relayed` is an independent one-arrival-at-a-time reference definition, and a session from Ready is proved equal to it.
  - `ReadyLoop` and `StreamWorkerThread` are the imperative loops of the Ready arm and of the spawned worker thread.

Floating-point amplitudes and frequencies are modelled as exact reals. `make_sound` (an f32 sine of clock, frequency and sample rate) is a parameter `wave: Waveform`.

## Model

| member | source | states |
|---|---|---|
| Wrappers.Option.UnwrapOr | src/stream.rs:208 | `unwrap_or_default` yields the value of `Some`, and the default on `None` |
| Queue.Newest | src/generator.rs:186 | the newest `n` entries of a history: exactly min(length, n) of them, and they form its suffix |
| Queue.NewestOfNewest | src/generator.rs:186 | taking the newest `n` entries, appending more, and taking the newest `n` again is the same as taking the newest `n` of the whole history |
| Queue.NewestOfPushed | src/generator.rs:181-187 | after appending `xs` to the contents and keeping the newest `capacity` entries: min(capacity, old length + \|xs\|) entries remain, and the newest min(capacity, \|xs\|) of them are the newest of `xs` |
| Queue.ForcePushed | src/generator.rs:186 | `force_push` keeps the newest `capacity` entries of the contents followed by `x`: the length never exceeds the capacity, and `x` is the newest entry |
| Queue.PushedAll | src/generator.rs:186 | a run of force-pushes never exceeds the capacity |
| Queue.PushedAllKeepsNewest | src/generator.rs:186 | any run of force-pushes leaves exactly the newest `capacity` entries of the old contents followed by the pushed values |
| Queue.OverfilledHoldsLastPushed | src/generator.rs:186 | after at least `capacity` force-pushes the queue holds exactly the last `capacity` values pushed, in push order |
| Queue.PopOrSilence | src/stream.rs:10-14 | a pop from an empty queue yields `StereoSample::default()`, which is (0.0, 0.0), and leaves the queue empty; otherwise it yields the oldest entry and removes only that entry |
| Queue.AudioQueue.constructor | src/stream.rs:68 | a new queue is empty and has exactly the requested capacity |
| Queue.AudioQueue.Len | src/generator.rs:80 | `len()` is the number of entries and never exceeds `capacity()` |
| Queue.AudioQueue.ForcePush | src/generator.rs:186 | the contents become `ForcePushed(old contents, x)`; the oldest entry is returned as evicted exactly when the queue was full |
| Queue.AudioQueue.Pop | src/stream.rs:208 | returns `None` exactly on an empty queue; unwrapped to the default, the popped value and the new contents are `PopOrSilence` of the old contents |
| Synthesis.NewSynth | src/generator.rs:136-143 | a new synthesizer has clock 0, frequency 440.0, is playing and keeps its sample rate |
| Synthesis.Played | src/generator.rs:145-147 | `play` sets the play flag; sample rate, clock and frequency are unchanged |
| Synthesis.Paused | src/generator.rs:149-151 | `pause` clears the play flag; sample rate, clock and frequency are unchanged |
| Synthesis.Raised | src/generator.rs:153-155 | `change_frequency` strictly raises a positive frequency, and the result stays positive |
| Synthesis.Advanced | src/generator.rs:166-168 | ticking `n` times advances the clock by exactly `n` and changes no other field |
| Synthesis.FrameAt | src/generator.rs:172-185 | a synthesised frame carries the same `make_sound` amplitude, taken at the current clock, on the left and on the right |
| Synthesis.Frames | src/generator.rs:171-189 | `count` frames are synthesised |
| Synthesis.FrameIndex | src/generator.rs:171-189 | the `i`-th synthesised frame is the one made at clock start + `i` |
| Synthesis.Generated | src/generator.rs:170-189 | the loop of `generate_audio` never lets the queue exceed its capacity |
| Synthesis.PushThenNewest | src/generator.rs:186 | one force-push followed by keeping the newest entries of what follows keeps the newest entries of the whole history |
| Synthesis.GeneratedClosedForm | src/generator.rs:170-189 | `generate_audio(count)` advances the clock by `count`; while playing it leaves the newest `capacity` entries of the old contents followed by the `count` new frames; while paused it leaves the queue unchanged |
| Synthesis.GenerateKeepsTime | src/synthesizer.rs:44-67 | `generate_audio(count)` advances the clock by exactly `count`, whether playing or paused, and changes no other field |
| Synthesis.GeneratePausedPushesNothing | src/synthesizer.rs:59-65 | while paused, `generate_audio` leaves the queue exactly as it was |
| Synthesis.FramesAreMono | src/synthesizer.rs:59-64 | every frame pushed has left == right |
| Synthesis.GeneratePlayingPushesFrames | src/generator.rs:181-186 | while playing, the queue ends with min(capacity, old length + count) entries, and its newest min(capacity, count) entries are the newest new frames, in clock order |
| Synthesis.Synthesizer.NewWith | src/synthesizer.rs:14-21 | the constructor's fields are `NewSynth(sample_rate)`: clock 0, 440 Hz, playing |
| Synthesis.Synthesizer.Play | src/synthesizer.rs:23-25 | in place, the state becomes `Played` of the old state |
| Synthesis.Synthesizer.Pause | src/synthesizer.rs:27-29 | in place, the state becomes `Paused` of the old state |
| Synthesis.Synthesizer.ChangeFrequency | src/synthesizer.rs:31-33 | in place, only the frequency changes, to the old one times 1.01 |
| Synthesis.Synthesizer.MakeSound | src/generator.rs:161-164 | `make_sound(freq)` at the current clock and sample rate is the amplitude of the frame `FrameAt` synthesises at that frequency, on both channels |
| Synthesis.Synthesizer.Tick | src/synthesizer.rs:44-46 | in place, the clock advances by one and nothing else changes |
| Synthesis.Synthesizer.GenerateAudio | src/synthesizer.rs:48-68 | the counted loop leaves the synthesizer and the queue exactly as `Generated` says, and the queue stays within its capacity |
| Generator.Shortfall | src/generator.rs:80 | `capacity() - len()` cannot underflow, and it plus the length is the capacity |
| Generator.Dispatch | src/generator.rs:57-93 | handling any one arrival keeps the queue within its capacity |
| Generator.PulseFillsShortfall | src/generator.rs:77-89 | a pulse never quits or reports. With shortfall < 64 nothing changes. With shortfall ≥ 64 the clock advances by exactly the shortfall, a playing synthesizer leaves the queue full, and a paused one leaves it unchanged |
| Generator.ChangeFrequencyReports | src/generator.rs:66-69 | ChangeFrequency multiplies the frequency by 1.01, touches nothing else, and sends exactly one Frequency event carrying the new value |
| Generator.DispatchKeepsFrequency | src/generator.rs:63-89 | every other arrival keeps the frequency and sends no event |
| Generator.Run | src/generator.rs:57-93 | the loop takes no more arrivals than it has, and keeps the queue within its capacity |
| Generator.RunAt | src/generator.rs:57-93 | from arrival `i` the loop dispatches that arrival, then stops on Quit after taking it, or goes on from the new state with any event sent first |
| Generator.Session | src/generator.rs:48-94 | the whole thread (a new synthesizer, the initial report, then the loop) sends the initial 440 Hz Frequency event first, takes no more arrivals than it has, and keeps the queue within its capacity |
| Generator.QuitStopsProcessing | src/generator.rs:73 | everything before the first Quit is handled, Quit is taken and breaks the loop, and nothing after it is ever applied |
| Generator.RunCountsChanges | src/generator.rs:66-69 | the loop sends exactly one event per ChangeFrequency it handled, and no other |
| Generator.RaisedTimes | src/generator.rs:153-155 | `k` calls of `change_frequency` never lower a positive frequency, and at least one call strictly raises it |
| Generator.RaisedTimesIsPower | src/generator.rs:153-155 | `k` calls of `change_frequency` multiply the frequency by 1.01^k |
| Generator.RunReportsEachChange | src/generator.rs:66-69 | the k-th Frequency event carries the frequency raised k + 1 times, and the final frequency is the start raised once per event |
| Generator.SessionReportsFrequency | src/generator.rs:49-52 | the thread first reports 440 Hz, then one event per handled ChangeFrequency, the k-th carrying 440 × 1.01^k; the last event sent always carries the current frequency |
| Generator.HandleArrival | src/generator.rs:59-92 | one iteration on the synthesizer object and the shared queue has exactly the effect, event and break decision of `Dispatch` |
| Generator.GeneratorThread | src/generator.rs:48-94 | the thread body sends the events, takes the arrivals, ends on Quit and leaves the queue exactly as `Session` says |
| Stream.StreamSetupFor | src/stream.rs:141-164 | a stream is built if and only if the format is F32 and the build succeeds; every other format hits `todo!()`; the built stream keeps the configuration |
| Stream.AudioStream.constructor | src/stream.rs:75-83 | a new stream keeps its configuration and its queue, and has made no play/pause request |
| Stream.AudioStream.SampleRate | src/stream.rs:94-97 | the sample rate is the negotiated configuration's |
| Stream.AudioStream.Play | src/stream.rs:110-112 | `play()` appends one start request to the device stream |
| Stream.AudioStream.Pause | src/stream.rs:116-118 | `pause()` appends one stop request to the device stream |
| Stream.CreateDefaultStream | src/stream.rs:63-91 | succeeds if and only if host/device setup succeeds, the format is F32 and the build succeeds; a setup failure is `Err`; a format other than F32 is `todo!()`. On success the stream owns a fresh, empty queue whose capacity is `buffer_size` |
| Stream.Popped | src/stream.rs:207-208 | the k-th pop of a callback yields the k-th entry, or silence once the queue has run dry |
| Stream.FilledUpTo | src/stream.rs:207-212 | filling frames keeps the buffer's length |
| Stream.Filled | src/stream.rs:207-212 | the buffer a callback leaves: same length, untouched when shorter than one frame, and slots 2 and up of every frame unchanged |
| Stream.FilledStep | src/stream.rs:207-212 | filling frame `f` changes exactly its slots 0 and 1 |
| Stream.OnWindow | src/stream.rs:198-215 | for two or more channels, the buffer becomes `Filled` of the old buffer and the old queue. Exactly ⌊length / channels⌋ samples are popped, FIFO, or all of them when fewer are queued. Exactly one pulse is sent |
| Stream.FilledFrames | src/stream.rs:207-212 | each whole frame gets the next popped sample: left in slot 0, right in slot 1, FIFO |
| Stream.FilledLeavesOtherSlots | src/stream.rs:207-212 | slots 2 and up of every frame, and the trailing `length % channels` elements, are left as they were |
| Stream.WriteFrame | src/stream.rs:208-212 | one frame written with the guard as written or as intended: it panics exactly on a one-slot frame under the guard as written; otherwise slot 0 gets the left value, slot 1 (when there is one) the right value, and the other slots are kept |
| Stream.EmptyQueueGivesSilence | src/stream.rs:10-14 | with an empty queue every frame gets 0.0 on both channels |
| Stream.FillChunks | src/stream.rs:207-213 | the chunk-by-chunk callback, when it does not panic, keeps the buffer's length |
| Stream.FilledSplit | src/stream.rs:207-212 | a filled buffer is its filled first frame followed by the rest, filled from the queue less its oldest entry |
| Stream.ChunksFillFrames | src/stream.rs:207-213 | for two or more channels the chunk-by-chunk callback never panics and writes exactly the buffer `OnWindow` is proved to write |
| Stream.IntendedAgreesOnStereo | src/stream.rs:210 | for two or more channels the guard as intended behaves exactly like the guard as written |
| Stream.MonoCallbackTraps | src/stream.rs:209-211 | as written, a one-channel callback with any output panics on its first frame |
| Stream.IntendedMonoWritesLeft | src/stream.rs:207-212 | with the intended guard, a one-channel callback never panics and writes each pop's left value into each slot, FIFO |
| Subscription.ReadyArm | src/subscription.rs:82-127 | the Ready arm takes no more arrivals than it has. When it returns, it has taken at least one and reports an event, and it moves to Ending exactly when that event is Quit, otherwise staying in Ready |
| Subscription.Unfold | src/subscription.rs:41-143 | a transition that takes no arrival strictly lowers the rank Start > Ready/Ending > Idle, so the unfold cannot loop without input |
| Subscription.ReadyLoop | src/subscription.rs:88-126 | the select loop returns exactly the Ready arm's poll |
| Subscription.ReadyArmAt | src/subscription.rs:94-123 | from arrival `i`: an app input is forwarded and the pass goes on; a worker Quit returns Quit and Ending; any other worker event is returned unchanged with Ready |
| Subscription.AppInputs | src/subscription.rs:94-99 | the app inputs among the arrivals are at most as many as the arrivals |
| Subscription.WorkerEvents | src/subscription.rs:100-123 | the worker events among the arrivals are at most as many as the arrivals |
| Subscription.AppInputsAppend | src/subscription.rs:94-99 | the app inputs of two runs of arrivals are those of the first, then those of the second |
| Subscription.WorkerEventsAppend | src/subscription.rs:100-123 | the worker events of two runs of arrivals are those of the first, then those of the second |
| Subscription.Session | src/subscription.rs:38-144 | iterating the unfold takes no more arrivals than it has |
| Subscription.EndingThenIdle | src/subscription.rs:128-141 | Ending emits nothing and moves to Idle; Idle never emits, forwards or consumes again |
| Subscription.Relayed | src/subscription.rs:82-127 | the reference behaviour of Ready, one arrival at a time, takes no more arrivals than it has |
| Subscription.ReadyStep | src/subscription.rs:82-127 | a session from Ready whose first pass returns goes on from where that pass stopped |
| Subscription.RelayedFirstPass | src/subscription.rs:82-127 | the reference behaviour splits where one pass of the Ready arm stops |
| Subscription.ReadySessionIsRelayed | src/subscription.rs:82-132 | a session from Ready, through any number of select loops, equals the one-arrival-at-a-time reference behaviour |
| Subscription.RelayedRelays | src/subscription.rs:94-123 | the reference behaviour reports exactly the consumed worker events and forwards exactly the consumed app inputs, in order. It ends in Idle exactly when its last event is Quit, taken from the last consumed arrival; otherwise it has consumed everything and stays in Ready |
| Subscription.FirstArrival | src/subscription.rs:94-123 | the inputs and events of the first 1 + n arrivals are those of the first arrival, then those of the next n |
| Subscription.RelaysAfterApp | src/subscription.rs:94-99 | forwarding one more app input first keeps the relaying property |
| Subscription.RelaysAfterEvent | src/subscription.rs:110-119 | reporting one more event other than Quit first keeps the relaying property |
| Subscription.ReportedBeforeQuit | src/subscription.rs:104-119 | putting an event other than Quit in front keeps Quit last, and keeps whether the events end with Quit |
| Subscription.SessionFromStart | src/subscription.rs:43-141 | a whole session emits Ready(input handle) first, then relays the consumed worker events in order and forwards the consumed app inputs in order. Quit is reported at most once, only last, and exactly when the session ends in Idle; otherwise every arrival was consumed and the state is Ready |
| Subscription.QuitStopsTheSession | src/subscription.rs:104-109 | once the worker has reported Quit, nothing that arrives later is forwarded or reported |
| Subscription.RelayedStopsAtQuit | src/subscription.rs:104-109 | in the reference behaviour, arrivals after the first worker Quit are ignored |
| Subscription.WorkerLoop | src/subscription.rs:57-69 | the receive loop takes no more inputs than it has |
| Subscription.StreamWorker | src/subscription.rs:52-71 | without a stream the worker makes no call and takes no input; with one it runs the receive loop |
| Subscription.SpawnedWorker | src/subscription.rs:52-71 | the thread creates the default stream and runs the receive loop only if creation succeeded. An `Err` ends it before any input; a format other than F32 ends it in `todo!()` |
| Subscription.StreamWorkerThread | src/subscription.rs:53-69 | the imperative receive loop produces exactly `StreamWorker`'s calls, exit and consumed count |
| Subscription.WorkerLoopAt | src/subscription.rs:59-67 | from input `i`: SetBufferSize is fatal; Play and Pause make their call and the loop goes on; Quit makes the quit call and breaks |
| Subscription.CallsFor | src/subscription.rs:61-62 | a run of Play/Pause inputs makes one call each, in order, with Play exactly where a start call is made |
| Subscription.WorkerDispatch | src/subscription.rs:57-69 | the worker maps each Play and Pause to a stream call, in order, until the first other input. On Quit it quits the stream and breaks, so later inputs are never applied. On SetBufferSize it stops fatally without a call. If every input is Play or Pause it handles them all and waits |

## Left out

- Threads, channels, `Select`, `try_recv` and `recv`, `JoinHandle::join` and the never-completing `future::pending()` are abstracted.
  - Each loop is given the sequence of arrivals its select hands out, in that order.
  - A `try_recv` that finds nothing, or a disconnected channel, only makes the loop go round again, so such wake-ups are not modelled.
  - Interleavings between threads are not modelled.
- The pulse channel is `bounded(1)` in `main.rs`, so the callback's send can block. This concurrency hazard is outside the model. `main.rs` (iced application wiring, view, styling, the frame tick) is not part of this model.
- The floating-point semantics are not modelled.
  - f32 rounding of `frequency * 1.01` is left out; frequencies and amplitudes are exact reals.
  - `make_sound` (an f32 sine) is an uninterpreted `Waveform` parameter.
  - `T::from_sample` is the identity.
- `usize` arithmetic is unbounded here. The sample clock's wrap-around (a panic in debug builds after 2^64 ticks) is not modelled.
- The crossbeam `ArrayQueue` internals (lock-free slots and stamps) are left out; only its sequential behaviour is modelled.
  - Concurrent pops by the callback during a `generate_audio` are not modelled.
  - `ArrayQueue::new(0)` panics, so `Queue.AudioQueue.constructor` and `Stream.CreateDefaultStream` require a positive capacity.
- cpal's host, device and `build_output_stream` are foreign calls. Their outcomes are parameters: `host` and `buildSucceeds`.
  - `Stream.AudioStream.Play` and `Stream.AudioStream.Pause` record requests instead of driving a device.
  - Logging (`println!`/`eprintln!`) and `Debug` impls are left out.
- `frequency()` is a plain field read, and `AudioStream::queue()` a plain accessor. They have no members of their own.
- `AudioGenerator`'s client-side helpers `play`, `pause`, `change_frequency` and `send` only put a message on the control channel. They are represented by the arrivals the worker receives.
- `AudioGenerator::receiver` hands the client the event channel. It sends nothing; the events it delivers are `Generator.Session`'s `events`, which `Generator.GeneratorThread` returns.
- In `src/subscription.rs`, the worker calls `audio_stream.quit()`, which `AudioStream` does not define. It also hands `create_default_stream` a sender of events where a `Sender<bool>` is expected.
  - The worker's stream calls are therefore a log of `StreamCall`s.
  - The worker events relayed by the bridge are arbitrary inputs, not derived from the sink.
  - The payloads of `Ready` (a channel sender), `Reset` (a queue) and `NeedsAudio` (an `Instant`) are opaque tokens.
- The panics of `todo!()` (non-F32 formats, `SetBufferSize`) and `panic!()` (an impossible select index) are modelled as an outcome (`Unimplemented`, `Fatal`), or left out where the index cannot occur.
- Stream.OnWindow: requires at least two channels, because as written a one-channel callback indexes out of bounds (see Findings). `Stream.FillChunks` models the one-channel case, both as written and as intended.
- Synthesis.GeneratePlayingPushesFrames: states the length and the newest entries. The full contents are in `Synthesis.GeneratedClosedForm`, and left == right is in `Synthesis.FramesAreMono`.

## Findings

| source | as written | input that shows it | evidently intended | confidence | as-written member | corrected member |
|---|---|---|---|---|---|---|
| src/stream.rs:210-211 | slot 1 of each frame is written under `if channel_count > 0`, which always holds inside a loop over chunks of `channel_count` | a one-channel output stream (`channel_count = 1`) with any non-empty output buffer: `frame[1]` is out of bounds and the callback panics | guard `channel_count > 1`: mono frames receive only the left value | high, not executed | Stream.MonoCallbackTraps | Stream.IntendedMonoWritesLeft |
