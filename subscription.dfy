/**
 * The bridge between the GUI and the audio sink (`AudioInterfaceSubscription`):
 * an unfold over four states. Start spawns the stream-worker thread and
 * announces `Ready`; Ready forwards every app input to the worker and relays
 * the worker's events, moving to Ending on its `Quit`; Ending joins the worker
 * and moves to Idle; Idle waits forever.
 *
 * Threads, channels and the select are abstracted: what arrives at the select
 * is a sequence of arrivals, each an app input or a worker event, in the order
 * the select hands them out. Worker events are arbitrary: the file calls a
 * `quit()` that `AudioStream` does not have and hands the stream a sender of
 * the wrong type, so they are not derived from the sink.
 */
module Subscription {
  import opened Wrappers
  import Stream

  /** `AudioInterfaceInput`: what the app sends to the subscription. */
  datatype AppInput = SetBufferSize(size: nat) | Play | Pause | Quit

  /**
   * `AudioInterfaceEvent`: what the subscription reports to the app. The input
   * handle carried by `Ready`, the queue carried by `Reset` (named by an id) and
   * the `Instant` of `NeedsAudio` are tokens here.
   */
  datatype InterfaceEvent = Ready(handle: nat) | Reset(sampleRate: nat, queueId: nat) | NeedsAudio(instant: nat, count: nat) | Quit

  /** The app's input handle announced by `Start`. */
  const InputHandle: nat := 0

  /** The unfold's `State`; the channels and the join handle it holds are left out. */
  datatype Phase = Start | Ready | Ending | Idle

  /** What the select hands out next: an input from the app or an event from the stream worker. */
  datatype Arrival = App(input: AppInput) | Worker(event: InterfaceEvent)

  /**
   * One call of the unfold closure. `Returned` is the `(Option<event>, state)`
   * pair it yields; `Pending` is a future that does not complete on these
   * arrivals. `consumed` counts the arrivals taken from the select and
   * `forwarded` lists the app inputs sent on to the worker, in order.
   */
  datatype Poll =
    | Returned(event: Option<InterfaceEvent>, next: Phase, consumed: nat, forwarded: seq<AppInput>)
    | Pending(consumed: nat, forwarded: seq<AppInput>)

  /** Orders the phases that move on without consuming an arrival. */
  function Rank(phase: Phase): (n: nat)
  {
    match phase
    case Start => 2
    case Ready => 1
    case Ending => 1
    case Idle => 0
  }

  /** A poll preceded by forwarding the app inputs `inputs`, one arrival each. */
  function AfterForwarding(inputs: seq<AppInput>, p: Poll): (r: Poll)
    ensures r.consumed == |inputs| + p.consumed && r.forwarded == inputs + p.forwarded
    ensures r.Returned? <==> p.Returned?
    ensures r.Returned? ==> r.event == p.event && r.next == p.next
  {
    p.(consumed := |inputs| + p.consumed, forwarded := inputs + p.forwarded)
  }

  /**
   * The Ready arm's loop: an app input is forwarded and the loop goes on; a
   * worker `Quit` is reported as `Quit` and leads to Ending; any other worker
   * event is reported unchanged and the state stays Ready. Out of arrivals, the
   * loop waits.
   */
  function ReadyArm(arrivals: seq<Arrival>): (r: Poll)
    ensures r.consumed <= |arrivals|
    ensures r.Returned? ==> 1 <= r.consumed && r.event.Some? && (r.next == Phase.Ready || r.next == Ending)
    ensures r.Returned? ==> (r.next == Ending <==> r.event == Some(InterfaceEvent.Quit))
    decreases |arrivals|
  {
    if |arrivals| == 0 then Pending(0, [])
    else
      match arrivals[0]
      case App(input) => AfterForwarding([input], ReadyArm(arrivals[1..]))
      case Worker(event) =>
        if event.Quit? then Returned(Some(InterfaceEvent.Quit), Ending, 1, [])
        else Returned(Some(event), Phase.Ready, 1, [])
  }

  /**
   * The unfold closure: Start spawns the worker and announces the input
   * handle; Ready runs its select loop; Ending joins the worker and emits
   * nothing; Idle awaits a future that never completes.
   */
  function Unfold(phase: Phase, arrivals: seq<Arrival>): (r: Poll)
    ensures r.consumed <= |arrivals|
    ensures r.Returned? && r.consumed == 0 ==> Rank(r.next) < Rank(phase)
  {
    match phase
    case Start => Returned(Some(InterfaceEvent.Ready(InputHandle)), Phase.Ready, 0, [])
    case Ready => ReadyArm(arrivals)
    case Ending => Returned(None, Idle, 0, [])
    case Idle => Pending(0, [])
  }

  /**
   * The Ready arm as the source writes it: a loop over what the select hands
   * out, sending app inputs on and returning at the first worker event.
   */
  method ReadyLoop(arrivals: seq<Arrival>) returns (r: Poll)
    ensures r == ReadyArm(arrivals)
  {
    var forwarded: seq<AppInput> := [];
    var i := 0;
    while i < |arrivals|
      invariant 0 <= i <= |arrivals| && |forwarded| == i
      invariant ReadyArm(arrivals) == AfterForwarding(forwarded, ReadyArm(arrivals[i..]))
    {
      ReadyArmAt(arrivals, i);
      match arrivals[i] {
        case App(input) =>
          ForwardingOneMore(forwarded, input, ReadyArm(arrivals[i + 1..]));
          forwarded := forwarded + [input];
        case Worker(event) =>
          if event.Quit? {
            return Returned(Some(InterfaceEvent.Quit), Ending, i + 1, forwarded);
          }
          return Returned(Some(event), Phase.Ready, i + 1, forwarded);
      }
      i := i + 1;
    }
    r := Pending(i, forwarded);
  }

  /** The Ready arm's pass from arrival `i` on, by what arrival `i` is. */
  lemma ReadyArmAt(arrivals: seq<Arrival>, i: nat)
    requires i < |arrivals|
    ensures arrivals[i].App? ==> ReadyArm(arrivals[i..]) == AfterForwarding([arrivals[i].input], ReadyArm(arrivals[i + 1..]))
    ensures arrivals[i] == Worker(InterfaceEvent.Quit) ==> ReadyArm(arrivals[i..]) == Returned(Some(InterfaceEvent.Quit), Ending, 1, [])
    ensures arrivals[i].Worker? && !arrivals[i].event.Quit? ==> ReadyArm(arrivals[i..]) == Returned(Some(arrivals[i].event), Phase.Ready, 1, [])
  {
    assert arrivals[i..][0] == arrivals[i] && arrivals[i..][1..] == arrivals[i + 1..];
  }

  lemma ForwardingOneMore(forwarded: seq<AppInput>, x: AppInput, p: Poll)
    ensures AfterForwarding(forwarded, AfterForwarding([x], p)) == AfterForwarding(forwarded + [x], p)
  {
    assert forwarded + ([x] + p.forwarded) == (forwarded + [x]) + p.forwarded;
  }

  /** The app input an arrival carries, if any. */
  function AppInputOf(a: Arrival): (r: seq<AppInput>)
    ensures a.App? ==> r == [a.input]
    ensures a.Worker? ==> r == []
  {
    if a.App? then [a.input] else []
  }

  /** The worker event an arrival carries, if any. */
  function WorkerEventOf(a: Arrival): (r: seq<InterfaceEvent>)
    ensures a.Worker? ==> r == [a.event]
    ensures a.App? ==> r == []
  {
    if a.Worker? then [a.event] else []
  }

  /** The app inputs among `arrivals`, in order. */
  function AppInputs(arrivals: seq<Arrival>): (r: seq<AppInput>)
    ensures |r| <= |arrivals|
  {
    if |arrivals| == 0 then [] else AppInputOf(arrivals[0]) + AppInputs(arrivals[1..])
  }

  /** The worker events among `arrivals`, in order. */
  function WorkerEvents(arrivals: seq<Arrival>): (r: seq<InterfaceEvent>)
    ensures |r| <= |arrivals|
  {
    if |arrivals| == 0 then [] else WorkerEventOf(arrivals[0]) + WorkerEvents(arrivals[1..])
  }

  lemma {:induction false} AppInputsAppend(a: seq<Arrival>, b: seq<Arrival>)
    ensures AppInputs(a + b) == AppInputs(a) + AppInputs(b)
    decreases |a|
  {
    if |a| == 0 {
      assert a + b == b;
    } else {
      var ab := a + b;
      assert ab[0] == a[0] && ab[1..] == a[1..] + b;
      AppInputsAppend(a[1..], b);
      assert AppInputs(ab) == AppInputOf(a[0]) + (AppInputs(a[1..]) + AppInputs(b));
    }
  }

  lemma {:induction false} WorkerEventsAppend(a: seq<Arrival>, b: seq<Arrival>)
    ensures WorkerEvents(a + b) == WorkerEvents(a) + WorkerEvents(b)
    decreases |a|
  {
    if |a| == 0 {
      assert a + b == b;
    } else {
      var ab := a + b;
      assert ab[0] == a[0] && ab[1..] == a[1..] + b;
      WorkerEventsAppend(a[1..], b);
      assert WorkerEvents(ab) == WorkerEventOf(a[0]) + (WorkerEvents(a[1..]) + WorkerEvents(b));
    }
  }

  /** What a run of the unfold from some state produces until it blocks. */
  datatype Trace = Trace(events: seq<InterfaceEvent>, forwarded: seq<AppInput>, final: Phase, consumed: nat)

  /**
   * The subscription's stream of events: the unfold applied again and again,
   * each call taking its arrivals from where the previous one stopped, until a
   * call does not complete.
   */
  function Session(phase: Phase, arrivals: seq<Arrival>): (t: Trace)
    ensures t.consumed <= |arrivals|
    decreases |arrivals|, Rank(phase)
  {
    match Unfold(phase, arrivals)
    case Pending(consumed, forwarded) => Trace([], forwarded, phase, consumed)
    case Returned(event, next, consumed, forwarded) =>
      var rest := Session(next, arrivals[consumed..]);
      Trace((if event.Some? then [event.value] else []) + rest.events,
            forwarded + rest.forwarded, rest.final, consumed + rest.consumed)
  }

  /** Ending emits nothing and moves to Idle; Idle never emits again. */
  lemma EndingThenIdle(arrivals: seq<Arrival>)
    ensures Unfold(Ending, arrivals) == Returned(None, Idle, 0, [])
    ensures Session(Ending, arrivals) == Trace([], [], Idle, 0)
    ensures Session(Idle, arrivals) == Trace([], [], Idle, 0)
  {
  }

  /**
   * The Ready state's behaviour stated one arrival at a time: an app input is
   * forwarded; a worker `Quit` is reported and ends the session in Idle (via
   * Ending); any other worker event is reported and the state stays Ready.
   * Out of arrivals, it waits in Ready.
   */
  function Relayed(arrivals: seq<Arrival>): (t: Trace)
    ensures t.consumed <= |arrivals|
    decreases |arrivals|
  {
    if |arrivals| == 0 then Trace([], [], Phase.Ready, 0)
    else
      match arrivals[0]
      case App(input) =>
        var t := Relayed(arrivals[1..]);
        t.(forwarded := [input] + t.forwarded, consumed := t.consumed + 1)
      case Worker(event) =>
        if event.Quit? then Trace([InterfaceEvent.Quit], [], Idle, 1)
        else
          var t := Relayed(arrivals[1..]);
          t.(events := [event] + t.events, consumed := t.consumed + 1)
  }

  /** A session from Ready whose first pass returns goes on from where that pass stopped. */
  lemma ReadyStep(arrivals: seq<Arrival>)
    requires ReadyArm(arrivals).Returned?
    ensures var r := ReadyArm(arrivals);
      var t := Session(r.next, arrivals[r.consumed..]);
      Session(Phase.Ready, arrivals) == Trace([r.event.value] + t.events, r.forwarded + t.forwarded, t.final, r.consumed + t.consumed)
  {
  }

  /**
   * `Relayed` splits where one pass of the Ready arm stops: what the pass
   * forwarded, then the event it returned (if any), then `Relayed` over the
   * rest when the pass stays in Ready.
   */
  lemma {:induction false} RelayedFirstPass(arrivals: seq<Arrival>)
    ensures var r := ReadyArm(arrivals);
      r.Pending? ==> Relayed(arrivals) == Trace([], r.forwarded, Phase.Ready, r.consumed)
    ensures var r := ReadyArm(arrivals);
      r.Returned? && r.next == Ending ==> Relayed(arrivals) == Trace([InterfaceEvent.Quit], r.forwarded, Idle, r.consumed)
    ensures var r := ReadyArm(arrivals);
      var t := Relayed(arrivals[r.consumed..]);
      r.Returned? && r.next == Phase.Ready ==>
        Relayed(arrivals) == Trace([r.event.value] + t.events, r.forwarded + t.forwarded, t.final, r.consumed + t.consumed)
    decreases |arrivals|
  {
    if |arrivals| > 0 {
      var tail := arrivals[1..];
      if arrivals[0].App? {
        RelayedFirstPass(tail);
        var x := arrivals[0].input;
        var r' := ReadyArm(tail);
        assert ReadyArm(arrivals) == AfterForwarding([x], r');
        if r'.Returned? && r'.next == Phase.Ready {
          assert arrivals[1 + r'.consumed..] == tail[r'.consumed..];
          var t := Relayed(tail[r'.consumed..]);
          assert [x] + (r'.forwarded + t.forwarded) == ([x] + r'.forwarded) + t.forwarded;
        }
      } else {
        assert [] + Relayed(tail).forwarded == Relayed(tail).forwarded;
      }
    }
  }

  /**
   * The Ready arm's select loop, run again and again, is the one-arrival-at-a-time
   * behaviour: a session from Ready is `Relayed`.
   */
  lemma {:induction false} ReadySessionIsRelayed(arrivals: seq<Arrival>)
    ensures Session(Phase.Ready, arrivals) == Relayed(arrivals)
    decreases |arrivals|
  {
    var r := ReadyArm(arrivals);
    RelayedFirstPass(arrivals);
    if r.Pending? {
      assert Unfold(Phase.Ready, arrivals) == r;
    } else {
      var rest := arrivals[r.consumed..];
      ReadyStep(arrivals);
      if r.next == Ending {
        EndingThenIdle(rest);
        assert r.forwarded + [] == r.forwarded && [InterfaceEvent.Quit] + [] == [InterfaceEvent.Quit];
      } else {
        ReadySessionIsRelayed(rest);
      }
    }
  }

  /**
   * What a session from Ready over `arrivals` does: it reports the consumed
   * worker events and forwards the consumed app inputs, in order; it ends in
   * Idle exactly when its last event is `Quit`, got from the last arrival
   * consumed, and otherwise has consumed everything and is Ready; no earlier
   * event is `Quit`.
   */
  predicate RelaysFrom(arrivals: seq<Arrival>, t: Trace)
  {
    && t.consumed <= |arrivals|
    && t.events == WorkerEvents(arrivals[..t.consumed])
    && t.forwarded == AppInputs(arrivals[..t.consumed])
    && (t.final == Idle || t.final == Phase.Ready)
    && (t.final == Idle <==> |t.events| > 0 && t.events[|t.events| - 1].Quit?)
    && (t.final == Idle ==> arrivals[t.consumed - 1] == Worker(InterfaceEvent.Quit))
    && (t.final == Phase.Ready ==> t.consumed == |arrivals|)
    && (forall k :: 0 <= k < |t.events| - 1 ==> !t.events[k].Quit?)
  }

  /**
   * `Relayed` reports exactly the consumed worker events and forwards exactly
   * the consumed app inputs, in order, and reports `Quit` at most once, last.
   */
  lemma {:induction false} RelayedRelays(arrivals: seq<Arrival>)
    ensures RelaysFrom(arrivals, Relayed(arrivals))
    decreases |arrivals|
  {
    if |arrivals| == 0 {
      assert arrivals[..0] == [];
    } else {
      var x := arrivals[0];
      if x.App? || !x.event.Quit? {
        RelayedRelays(arrivals[1..]);
        if x.App? {
          RelaysAfterApp(arrivals, Relayed(arrivals[1..]));
        } else {
          RelaysAfterEvent(arrivals, Relayed(arrivals[1..]));
        }
      } else {
        FirstArrival(arrivals, 0);
        assert [x][1..] == [];
      }
    }
  }

  /** The inputs and events among the first `1 + n` arrivals: those of the first, then those among the next `n`. */
  lemma FirstArrival(arrivals: seq<Arrival>, n: nat)
    requires 1 + n <= |arrivals|
    ensures AppInputs(arrivals[..1 + n]) == AppInputOf(arrivals[0]) + AppInputs(arrivals[1..][..n])
    ensures WorkerEvents(arrivals[..1 + n]) == WorkerEventOf(arrivals[0]) + WorkerEvents(arrivals[1..][..n])
  {
    var p := arrivals[..1 + n];
    assert p[0] == arrivals[0] && p[1..] == arrivals[1..][..n];
  }

  /** Relaying is kept by forwarding one more app input first. */
  lemma RelaysAfterApp(arrivals: seq<Arrival>, t: Trace)
    requires |arrivals| > 0 && arrivals[0].App?
    requires RelaysFrom(arrivals[1..], t)
    ensures RelaysFrom(arrivals, t.(forwarded := [arrivals[0].input] + t.forwarded, consumed := t.consumed + 1))
  {
    FirstArrival(arrivals, t.consumed);
    assert [] + t.events == t.events;
    if t.final == Idle {
      assert arrivals[t.consumed] == arrivals[1..][t.consumed - 1];
    }
  }

  /** Relaying is kept by reporting one more worker event other than `Quit` first. */
  lemma RelaysAfterEvent(arrivals: seq<Arrival>, t: Trace)
    requires |arrivals| > 0 && arrivals[0].Worker? && !arrivals[0].event.Quit?
    requires RelaysFrom(arrivals[1..], t)
    ensures RelaysFrom(arrivals, t.(events := [arrivals[0].event] + t.events, consumed := t.consumed + 1))
  {
    FirstArrival(arrivals, t.consumed);
    assert [] + t.forwarded == t.forwarded;
    ReportedBeforeQuit(arrivals[0].event, t.events);
    if t.final == Idle {
      assert arrivals[t.consumed] == arrivals[1..][t.consumed - 1];
    }
  }

  /** Reporting an event other than `Quit` first keeps `Quit` last, and keeps whether the events end with one. */
  lemma ReportedBeforeQuit(e: InterfaceEvent, events: seq<InterfaceEvent>)
    requires !e.Quit? && forall k :: 0 <= k < |events| - 1 ==> !events[k].Quit?
    ensures var all := [e] + events;
      && (forall k :: 0 <= k < |all| - 1 ==> !all[k].Quit?)
      && (all[|all| - 1].Quit? <==> |events| > 0 && events[|events| - 1].Quit?)
  {
    var all := [e] + events;
    forall k | 0 <= k < |all| - 1 ensures !all[k].Quit? {
      if k > 0 {
        assert all[k] == events[k - 1];
      }
    }
    if |events| > 0 {
      assert all[|all| - 1] == events[|events| - 1];
    }
  }

  /**
   * A whole session from Start: the first event announces the input handle;
   * after it come the consumed worker events, relayed in order, and every
   * consumed app input is forwarded in order. `Quit` is reported at most once,
   * only as the last event, and exactly when the session ends in Idle, after
   * which no arrival is consumed; otherwise every arrival was consumed.
   */
  lemma SessionFromStart(arrivals: seq<Arrival>)
    ensures var t := Session(Start, arrivals);
      && t.events == [InterfaceEvent.Ready(InputHandle)] + WorkerEvents(arrivals[..t.consumed])
      && t.forwarded == AppInputs(arrivals[..t.consumed])
      && (t.final == Idle <==> t.events[|t.events| - 1].Quit?)
      && (t.final == Idle ==> arrivals[t.consumed - 1] == Worker(InterfaceEvent.Quit))
      && (t.final != Idle ==> t.final == Phase.Ready && t.consumed == |arrivals|)
      && (forall k :: 0 <= k < |t.events| - 1 ==> !t.events[k].Quit?)
  {
    ReadySessionIsRelayed(arrivals);
    RelayedRelays(arrivals);
    var t := Session(Phase.Ready, arrivals);
    assert Session(Start, arrivals) == Trace([InterfaceEvent.Ready(InputHandle)] + t.events, t.forwarded, t.final, t.consumed);
    ReportedBeforeQuit(InterfaceEvent.Ready(InputHandle), t.events);
  }

  /**
   * Once the worker has reported `Quit`, nothing that arrives afterwards is
   * forwarded or reported: the session over `before + after` is the session
   * over `before` alone.
   */
  lemma QuitStopsTheSession(before: seq<Arrival>, after: seq<Arrival>)
    requires |before| > 0 && before[|before| - 1] == Worker(InterfaceEvent.Quit)
    requires forall k :: 0 <= k < |before| - 1 ==> before[k] != Worker(InterfaceEvent.Quit)
    ensures Session(Start, before + after) == Session(Start, before)
  {
    ReadySessionIsRelayed(before + after);
    ReadySessionIsRelayed(before);
    RelayedStopsAtQuit(before, after);
  }

  lemma {:induction false} RelayedStopsAtQuit(before: seq<Arrival>, after: seq<Arrival>)
    requires |before| > 0 && before[|before| - 1] == Worker(InterfaceEvent.Quit)
    requires forall k :: 0 <= k < |before| - 1 ==> before[k] != Worker(InterfaceEvent.Quit)
    ensures Relayed(before + after) == Relayed(before)
    decreases |before|
  {
    var all := before + after;
    assert all[0] == before[0];
    if |before| > 1 {
      assert all[1..] == before[1..] + after;
      RelayedStopsAtQuit(before[1..], after);
    }
  }

  // The stream-worker thread spawned by Start.

  /** A call the worker makes on the audio stream. */
  datatype StreamCall = PlayStream | PauseStream | QuitStream

  /**
   * How the worker thread ends: the stream could not be created, so no input
   * is taken; `Quit` broke the loop; `SetBufferSize` hit its `todo!()`; or it
   * is still blocked waiting for the next input.
   */
  datatype WorkerExit = NoStream | Quitted | Fatal | Waiting

  /** The calls the worker made on the stream, how it ended, and how many inputs it took. */
  datatype WorkerRun = WorkerRun(calls: seq<StreamCall>, exit: WorkerExit, consumed: nat)

  /** The worker's receive loop over the forwarded inputs, once the stream exists. */
  function WorkerLoop(inputs: seq<AppInput>): (r: WorkerRun)
    ensures r.consumed <= |inputs| && r.exit != NoStream
    decreases |inputs|
  {
    if |inputs| == 0 then WorkerRun([], Waiting, 0)
    else
      match inputs[0]
      case SetBufferSize(_) => WorkerRun([], Fatal, 1)
      case Play => Continuing(PlayStream, WorkerLoop(inputs[1..]))
      case Pause => Continuing(PauseStream, WorkerLoop(inputs[1..]))
      case Quit => WorkerRun([QuitStream], Quitted, 1)
  }

  /** A run preceded by one more handled input that made the call `c`. */
  function Continuing(c: StreamCall, r: WorkerRun): (r': WorkerRun)
    ensures r'.calls == [c] + r.calls && r'.exit == r.exit && r'.consumed == r.consumed + 1
  {
    r.(calls := [c] + r.calls, consumed := r.consumed + 1)
  }

  /** A run preceded by the handled inputs that made `calls`, one input each. */
  function AfterCalls(calls: seq<StreamCall>, r: WorkerRun): (r': WorkerRun)
    ensures r'.calls == calls + r.calls && r'.exit == r.exit && r'.consumed == |calls| + r.consumed
  {
    r.(calls := calls + r.calls, consumed := |calls| + r.consumed)
  }

  /** The worker thread: with no stream it ends at once, else it runs its receive loop. */
  function StreamWorker(created: bool, inputs: seq<AppInput>): (r: WorkerRun)
    ensures !created ==> r == WorkerRun([], NoStream, 0)
    ensures created ==> r == WorkerLoop(inputs)
  {
    if created then WorkerLoop(inputs) else WorkerRun([], NoStream, 0)
  }

  /**
   * The spawned thread from the start: it creates the default stream (with the
   * default buffer size) and runs the receive loop only if that succeeded. An
   * `Err` from creation ends the thread without taking an input; a sample
   * format other than F32 panics in `todo!()`, which also ends it at once.
   */
  method SpawnedWorker(host: Option<Stream.StreamConfig>, buildSucceeds: bool, inputs: seq<AppInput>)
    returns (r: WorkerRun)
    ensures host.Some? && host.value.format == Stream.F32 && buildSucceeds ==> r == WorkerLoop(inputs)
    ensures host.None? || (host.value.format == Stream.F32 && !buildSucceeds) ==> r == WorkerRun([], NoStream, 0)
    ensures host.Some? && host.value.format != Stream.F32 ==> r == WorkerRun([], Fatal, 0)
  {
    var stream := Stream.CreateDefaultStream(Stream.ReasonableBufferSize, host, buildSucceeds);
    match stream
    case Built(_) => r := StreamWorkerThread(true, inputs);
    case Failed => r := StreamWorkerThread(false, inputs);
    case Unimplemented => r := WorkerRun([], Fatal, 0);
  }

  /** The worker thread as the source writes it: a loop that receives an input and dispatches on it. */
  method StreamWorkerThread(created: bool, inputs: seq<AppInput>) returns (r: WorkerRun)
    ensures r == StreamWorker(created, inputs)
  {
    if !created {
      return WorkerRun([], NoStream, 0);
    }
    var calls: seq<StreamCall> := [];
    var i := 0;
    while i < |inputs|
      invariant 0 <= i <= |inputs| && |calls| == i
      invariant WorkerLoop(inputs) == AfterCalls(calls, WorkerLoop(inputs[i..]))
    {
      WorkerLoopAt(inputs, i);
      match inputs[i] {
        case SetBufferSize(_) =>
          assert calls + [] == calls;
          return WorkerRun(calls, Fatal, i + 1);
        case Play =>
          CallingOneMore(calls, PlayStream, WorkerLoop(inputs[i + 1..]));
          calls := calls + [PlayStream];
        case Pause =>
          CallingOneMore(calls, PauseStream, WorkerLoop(inputs[i + 1..]));
          calls := calls + [PauseStream];
        case Quit =>
          return WorkerRun(calls + [QuitStream], Quitted, i + 1);
      }
      i := i + 1;
    }
    r := WorkerRun(calls, Waiting, i);
  }

  /** The receive loop from input `i` on, by what input `i` is. */
  lemma WorkerLoopAt(inputs: seq<AppInput>, i: nat)
    requires i < |inputs|
    ensures inputs[i].SetBufferSize? ==> WorkerLoop(inputs[i..]) == WorkerRun([], Fatal, 1)
    ensures inputs[i].Play? ==> WorkerLoop(inputs[i..]) == Continuing(PlayStream, WorkerLoop(inputs[i + 1..]))
    ensures inputs[i].Pause? ==> WorkerLoop(inputs[i..]) == Continuing(PauseStream, WorkerLoop(inputs[i + 1..]))
    ensures inputs[i].Quit? ==> WorkerLoop(inputs[i..]) == WorkerRun([QuitStream], Quitted, 1)
  {
    assert inputs[i..][0] == inputs[i] && inputs[i..][1..] == inputs[i + 1..];
  }

  lemma CallingOneMore(calls: seq<StreamCall>, c: StreamCall, r: WorkerRun)
    ensures AfterCalls(calls, Continuing(c, r)) == AfterCalls(calls + [c], r)
  {
    assert calls + ([c] + r.calls) == (calls + [c]) + r.calls;
  }

  /** Inputs the worker handles without leaving its loop. */
  predicate PlayOrPause(inputs: seq<AppInput>)
  {
    forall k :: 0 <= k < |inputs| ==> inputs[k].Play? || inputs[k].Pause?
  }

  /** The stream calls for a run of Play/Pause inputs: Play starts the stream, Pause pauses it. */
  function CallsFor(inputs: seq<AppInput>): (r: seq<StreamCall>)
    requires PlayOrPause(inputs)
    ensures |r| == |inputs|
    ensures forall k :: 0 <= k < |inputs| ==> (r[k] == PlayStream <==> inputs[k].Play?)
  {
    if |inputs| == 0 then []
    else [if inputs[0].Play? then PlayStream else PauseStream] + CallsFor(inputs[1..])
  }

  /**
   * The worker maps each Play and Pause, in order, to a call on the stream
   * until the first other input. On `Quit` it quits the stream and leaves the
   * loop, so no later input is applied; on `SetBufferSize` it stops fatally
   * without a call; if every input is Play or Pause it handles them all and
   * waits for more.
   */
  lemma {:induction false} WorkerDispatch(before: seq<AppInput>, x: AppInput, after: seq<AppInput>)
    requires PlayOrPause(before)
    ensures x.Quit? ==> StreamWorker(true, before + [x] + after) == WorkerRun(CallsFor(before) + [QuitStream], Quitted, |before| + 1)
    ensures x.SetBufferSize? ==> StreamWorker(true, before + [x] + after) == WorkerRun(CallsFor(before), Fatal, |before| + 1)
    ensures StreamWorker(true, before) == WorkerRun(CallsFor(before), Waiting, |before|)
    decreases |before|
  {
    var all := before + [x] + after;
    if |before| > 0 {
      assert all[1..] == before[1..] + [x] + after;
      WorkerDispatch(before[1..], x, after);
    } else {
      assert all[0] == x;
    }
  }
}
