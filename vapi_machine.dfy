/**
 * The call-session state machine: `initializing -> idle -> connecting ->
 * connected{listening|speaking} -> error`, with its context (voice handle,
 * transcript, last error, stored listener table) and the calls it makes on
 * the voice handle.
 *
 * A targeted transition runs the source state's exit action first and then
 * the transition's own actions, in the order they are listed.
 */
module VapiMachine {
  import opened Wrappers
  import opened VoiceSdk

  datatype Substate = Listening | Speaking

  datatype State = Initializing | Idle | Connecting | Connected(sub: Substate) | Error

  datatype Event =
    | StartCall
    | StopCall
    | CallStarted
    | CallEnded
    | SpeechStarted
    | SpeechEnded
    | TranscriptReceived(message: TranscriptMessage)
    | ErrorOccurred(error: string)

  /**
   * A snapshot of the machine: its state, its context (`vapi` tells whether
   * the handle is non-null, `handlers` which of the six listener closures the
   * context stores) and the log of every call made on the handle.
   */
  datatype Machine = Machine(
    state: State,
    vapi: bool,
    transcript: seq<TranscriptMessage>,
    error: Option<string>,
    handlers: set<EventName>,
    calls: seq<SdkCall>)

  /** The initial context, before the entry action of `initializing` runs. */
  function Initial(): Machine {
    Machine(Initializing, false, [], None, {}, [])
  }

  /** `initializeVapi`: create the handle, attach the six listeners, store their closures. */
  function Initialized(m: Machine): (r: Machine)
    ensures r.vapi && r.handlers == AllEvents && m.calls <= r.calls
    ensures r.(vapi := m.vapi, handlers := m.handlers, calls := m.calls) == m
    ensures Attached(r.calls) == Attached(m.calls) + AllEvents
  {
    ReplayAppend({}, m.calls, RegisterCalls());
    RegisterAttachesAll(Attached(m.calls));
    m.(vapi := true, handlers := AllEvents, calls := m.calls + RegisterCalls())
  }

  /** The eventless transition of `initializing`, guarded by a non-null handle. */
  function Always(m: Machine): (r: Machine)
    ensures r.(state := m.state) == m
    ensures r.state != m.state <==> m.state == Initializing && m.vapi
    ensures r.state != m.state ==> r.state == Idle
  {
    if m.state == Initializing && m.vapi then m.(state := Idle) else m
  }

  /** The machine once its actor has started. */
  function Started(): Machine {
    Always(Initialized(Initial()))
  }

  function OffIf(n: EventName, handlers: set<EventName>): seq<SdkCall> {
    if n in handlers then [Off(n)] else []
  }

  /** `cleanupVapi`: detach every stored listener, then stop; nothing when the handle is null. */
  function CleanupCalls(vapi: bool, handlers: set<EventName>): (r: seq<SdkCall>)
    ensures !vapi ==> r == []
    ensures vapi ==> r != [] && r[|r| - 1] == Stop
    ensures forall i :: 0 <= i < |r| - 1 ==> r[i].Off? && r[i].name in handlers
  {
    if !vapi then []
    else
      OffIf(CallStart, handlers) + OffIf(CallEnd, handlers) + OffIf(SpeechStart, handlers)
      + OffIf(SpeechEnd, handlers) + OffIf(ErrorEvent, handlers) + OffIf(Message, handlers)
      + [Stop]
  }

  /** `startCall`: `vapi?.start(...)`. */
  function StartCalls(vapi: bool): seq<SdkCall> {
    if vapi then [Start(AssistantId)] else []
  }

  /** `stopCall`: `vapi?.stop()`. */
  function StopCalls(vapi: bool): seq<SdkCall> {
    if vapi then [Stop] else []
  }

  /** The exit action shared by `idle`, `connecting`, `connected` and `error`. */
  function Exit(m: Machine): (r: Machine)
    ensures r.(calls := m.calls) == m && m.calls <= r.calls
    ensures !m.vapi ==> r == m
  {
    m.(calls := m.calls + CleanupCalls(m.vapi, m.handlers))
  }

  /** One event sent to the machine. Events a state does not handle change nothing. */
  function Step(m: Machine, ev: Event): (r: Machine)
    ensures m.state == Initializing ==> r == m
    ensures r.vapi == m.vapi && r.handlers == m.handlers && m.calls <= r.calls
    ensures r.calls != m.calls ==> r.state != m.state && CleansUpOnExit(m.state)
    ensures r.transcript != m.transcript ==> m.state.Connecting? || m.state.Connected?
    ensures r.error != m.error ==> m.state.Error? || r.state.Error?
  {
    match m.state
    case Initializing => m
    case Idle =>
      if ev.StartCall? then
        var x := Exit(m);
        x.(state := Connecting, calls := x.calls + StartCalls(x.vapi))
      else m
    case Connecting =>
      (match ev
       case CallStarted => Exit(m).(state := Connected(Listening), transcript := [])
       case CallEnded => Exit(m).(state := Idle)
       case ErrorOccurred(e) => Exit(m).(state := Error, error := Some(e))
       case StopCall =>
         var x := Exit(m);
         x.(state := Idle, calls := x.calls + StopCalls(x.vapi))
       case _ => m)
    case Connected(sub) =>
      (match ev
       case CallEnded => Exit(m).(state := Idle)
       case StopCall =>
         var x := Exit(m);
         x.(state := Idle, calls := x.calls + StopCalls(x.vapi))
       case ErrorOccurred(e) => Exit(m).(state := Error, error := Some(e))
       case TranscriptReceived(msg) => m.(transcript := m.transcript + [msg])
       case SpeechStarted => if sub == Listening then m.(state := Connected(Speaking)) else m
       case SpeechEnded => if sub == Speaking then m.(state := Connected(Listening)) else m
       case _ => m)
    case Error =>
      if ev.StartCall? then
        var x := Exit(m).(error := None);
        x.(state := Connecting, calls := x.calls + StartCalls(x.vapi))
      else m
  }

  /** The listener closures created by `initializeVapi`: each forwards its SDK event. */
  function Handle(m: Machine, e: SdkEvent): (r: Machine)
    ensures r.vapi == m.vapi && r.handlers == m.handlers && m.calls <= r.calls
    ensures e.MessageFired? ==> r.state == m.state && r.calls == m.calls
    ensures e.MessageFired? && ToTranscriptMessage(e.message).None? ==> r == m
  {
    match e
    case CallStartFired => Step(m, CallStarted)
    case CallEndFired => Step(m, CallEnded)
    case SpeechStartFired => Step(m, SpeechStarted)
    case SpeechEndFired => Step(m, SpeechEnded)
    case ErrorFired(err) => Step(m, ErrorOccurred(err))
    case MessageFired(msg) =>
      match ToTranscriptMessage(msg)
      case Some(t) => Step(m, TranscriptReceived(t))
      case None => m
  }

  /** The SDK emitting `e`: a closure runs only while its listener is attached to the handle. */
  function Deliver(m: Machine, e: SdkEvent): (r: Machine)
    ensures NameOf(e) !in Attached(m.calls) ==> r == m
    ensures Inv(m) && !m.state.Idle? ==> r == m
  {
    if NameOf(e) in Attached(m.calls) then Handle(m, e) else m
  }

  /** A sequence of events sent one after the other. */
  function Run(m: Machine, evs: seq<Event>): Machine
    decreases |evs|
  {
    if evs == [] then m else Run(Step(m, evs[0]), evs[1..])
  }

  /** The states whose exit action is `cleanupVapi`. */
  predicate CleansUpOnExit(s: State) {
    s.Idle? || s.Connecting? || s.Connected? || s.Error?
  }

  /** What holds of every snapshot the started machine can reach. */
  ghost predicate Inv(m: Machine) {
    && (m.state != Initializing ==> m.vapi && m.handlers == AllEvents)
    && (m.error.Some? <==> m.state == Error)
    && (m.state.Connecting? || m.state.Connected? || m.state.Error? ==> Attached(m.calls) == {})
  }

  lemma ReplayOffIf(s: set<EventName>, n: EventName, h: set<EventName>)
    ensures Replay(s, OffIf(n, h)) == if n in h then s - {n} else s
  {
    if n in h {
      assert OffIf(n, h)[1..] == [];
    }
  }

  /** `cleanupVapi` on a non-null handle detaches exactly the stored listeners. */
  lemma CleanupDetaches(s: set<EventName>, h: set<EventName>)
    ensures Replay(s, CleanupCalls(true, h)) == s - h
  {
    var o1, o2, o3 := OffIf(CallStart, h), OffIf(CallEnd, h), OffIf(SpeechStart, h);
    var o4, o5, o6 := OffIf(SpeechEnd, h), OffIf(ErrorEvent, h), OffIf(Message, h);
    ReplayAppend(s, o1 + o2 + o3 + o4 + o5 + o6, [Stop]);
    ReplayAppend(s, o1 + o2 + o3 + o4 + o5, o6);
    ReplayAppend(s, o1 + o2 + o3 + o4, o5);
    ReplayAppend(s, o1 + o2 + o3, o4);
    ReplayAppend(s, o1 + o2, o3);
    ReplayAppend(s, o1, o2);
    var r1 := Replay(s, o1);
    ReplayOffIf(s, CallStart, h);
    var r2 := Replay(r1, o2);
    ReplayOffIf(r1, CallEnd, h);
    var r3 := Replay(r2, o3);
    ReplayOffIf(r2, SpeechStart, h);
    var r4 := Replay(r3, o4);
    ReplayOffIf(r3, SpeechEnd, h);
    var r5 := Replay(r4, o5);
    ReplayOffIf(r4, ErrorEvent, h);
    var r6 := Replay(r5, o6);
    ReplayOffIf(r5, Message, h);
    assert Replay(r6, [Stop]) == r6;
    forall x | x in r6 ensures x in s - h {
      match x
      case CallStart =>
      case CallEnd =>
      case SpeechStart =>
      case SpeechEnd =>
      case ErrorEvent =>
      case Message =>
    }
    forall x | x in s - h ensures x in r6 {
    }
  }

  /** Appending `start` or `stop` calls does not change the attached listeners. */
  lemma AttachedAfterLifecycle(calls: seq<SdkCall>, extra: seq<SdkCall>)
    requires forall i :: 0 <= i < |extra| ==> Lifecycle(extra[i])
    ensures Attached(calls + extra) == Attached(calls)
  {
    ReplayAppend({}, calls, extra);
    ReplayLifecycle(Attached(calls), extra);
  }

  /** After the exit action on a non-null handle, no stored listener remains attached. */
  lemma AttachedAfterExit(m: Machine)
    requires m.vapi
    ensures Attached(Exit(m).calls) == Attached(m.calls) - m.handlers
  {
    ReplayAppend({}, m.calls, CleanupCalls(true, m.handlers));
    CleanupDetaches(Attached(m.calls), m.handlers);
  }

  /**
   * Starting the actor runs `initializeVapi` and then leaves `initializing`
   * for `idle`: the handle is non-null, exactly the six listeners are
   * attached, one per event name, and all six closures are stored.
   */
  lemma StartedIsIdle()
    ensures Started().state == Idle && Started().vapi
    ensures Started().calls == RegisterCalls()
    ensures Attached(Started().calls) == AllEvents && Started().handlers == AllEvents
    ensures Started().transcript == [] && Started().error == None
    ensures Inv(Started())
  {
    assert Initial().calls + RegisterCalls() == RegisterCalls();
    RegisterAttachesAll({});
  }

  /** The guard of `initializing`: the machine leaves it exactly when the handle is non-null. */
  lemma AlwaysNeedsHandle(m: Machine)
    requires m.state == Initializing
    ensures Always(m).state == (if m.vapi then Idle else Initializing)
    ensures Always(m).calls == m.calls && Always(m).transcript == m.transcript
    ensures Always(m) == (if m.vapi then m.(state := Idle) else m)
  {
  }

  /** A state without an `on` entry for an event ignores it. */
  lemma InitializingIgnoresEvents(m: Machine, ev: Event)
    requires m.state == Initializing
    ensures Step(m, ev) == m
  {
  }

  /** Every step keeps the reachability invariant. */
  lemma StepPreservesInv(m: Machine, ev: Event)
    requires Inv(m)
    ensures Inv(Step(m, ev))
  {
    var m' := Step(m, ev);
    if m'.calls != m.calls && m.state != Initializing {
      var x := Exit(m);
      AttachedAfterExit(m);
      AllEventsComplete(Attached(m.calls));
      assert Attached(x.calls) == {};
      if m'.calls != x.calls {
        var extra := m'.calls[|x.calls|..];
        assert m'.calls == x.calls + extra;
        assert extra == StartCalls(true) || extra == StopCalls(true);
        AttachedAfterLifecycle(x.calls, extra);
      }
    }
  }

  lemma {:induction false} RunPreservesInv(m: Machine, evs: seq<Event>)
    requires Inv(m)
    ensures Inv(Run(m, evs))
    decreases |evs|
  {
    if evs != [] {
      StepPreservesInv(m, evs[0]);
      RunPreservesInv(Step(m, evs[0]), evs[1..]);
    }
  }

  /** Every snapshot reachable from the started machine satisfies `Inv`. */
  lemma ReachableInv(evs: seq<Event>)
    ensures Inv(Run(Started(), evs))
  {
    StartedIsIdle();
    RunPreservesInv(Started(), evs);
  }

  /**
   * `START_CALL` is accepted in `idle` and in `error`: it leads to
   * `connecting`; the calls are the exit cleanup (every `off`, then `stop`)
   * followed by `start`, and from `error` the stored error is cleared.
   */
  lemma StartCallAccepted(m: Machine)
    requires m.state == Idle || m.state == Error
    ensures Step(m, StartCall).state == Connecting
    ensures Step(m, StartCall).calls == m.calls + CleanupCalls(m.vapi, m.handlers) + StartCalls(m.vapi)
    ensures Step(m, StartCall).error == (if m.state == Error then None else m.error)
    ensures Step(m, StartCall).transcript == m.transcript
  {
  }

  /** With the handle set and all closures stored, the exact call order of `START_CALL`. */
  lemma StartCallOrder(m: Machine)
    requires Inv(m) && (m.state == Idle || m.state == Error)
    ensures Step(m, StartCall).calls == m.calls
      + [Off(CallStart), Off(CallEnd), Off(SpeechStart), Off(SpeechEnd), Off(ErrorEvent), Off(Message), Stop]
      + [Start(AssistantId)]
  {
  }

  /** While a call is connecting or connected, `START_CALL` is ignored, not queued. */
  lemma StartCallIgnoredDuringCall(m: Machine)
    requires m.state == Connecting || m.state.Connected?
    ensures Step(m, StartCall) == m
  {
  }

  /** `CALL_STARTED` while connecting: `connected.listening` with an empty transcript. */
  lemma CallStartedClearsTranscript(m: Machine)
    requires m.state == Connecting
    ensures Step(m, CallStarted).state == Connected(Listening)
    ensures Step(m, CallStarted).transcript == []
    ensures Step(m, CallStarted).calls == m.calls + CleanupCalls(m.vapi, m.handlers)
  {
  }

  /** `TRANSCRIPT_RECEIVED` while connected keeps the substate and appends the message at the end. */
  lemma TranscriptAppends(m: Machine, msg: TranscriptMessage)
    requires m.state.Connected?
    ensures Step(m, TranscriptReceived(msg)).state == m.state
    ensures Step(m, TranscriptReceived(msg)).transcript == m.transcript + [msg]
    ensures Step(m, TranscriptReceived(msg)).calls == m.calls
    ensures Step(m, TranscriptReceived(msg)).error == m.error
  {
  }

  /** Outside `connected`, a transcript message is dropped. */
  lemma TranscriptIgnoredOutsideCall(m: Machine, msg: TranscriptMessage)
    requires !m.state.Connected?
    ensures Step(m, TranscriptReceived(msg)) == m
  {
  }

  /** Speech events toggle the substate of `connected` and touch nothing else. */
  lemma SpeechToggles(m: Machine)
    requires m.state.Connected?
    ensures Step(m, SpeechStarted) == (if m.state.sub == Listening then m.(state := Connected(Speaking)) else m)
    ensures Step(m, SpeechEnded) == (if m.state.sub == Speaking then m.(state := Connected(Listening)) else m)
  {
  }

  /** `ERROR_OCCURRED` during a call stores the error and leads to `error` after cleanup. */
  lemma ErrorOccurredStores(m: Machine, e: string)
    requires m.state == Connecting || m.state.Connected?
    ensures Step(m, ErrorOccurred(e)).state == Error
    ensures Step(m, ErrorOccurred(e)).error == Some(e)
    ensures Step(m, ErrorOccurred(e)).calls == m.calls + CleanupCalls(m.vapi, m.handlers)
    ensures Step(m, ErrorOccurred(e)).transcript == m.transcript
  {
  }

  /**
   * Leaving `idle`, `connecting`, `connected` or `error` runs the cleanup:
   * every stored listener is detached and `stop` is called when the handle is
   * non-null, and nothing is called when it is null. For a reachable snapshot
   * no listener remains attached afterwards.
   */
  lemma ExitCleansUp(m: Machine, ev: Event)
    requires CleansUpOnExit(m.state)
    requires !Step(m, ev).state.Connected? || !m.state.Connected?
    requires Step(m, ev).state != m.state
    ensures Step(m, ev).calls[..|m.calls| + |CleanupCalls(m.vapi, m.handlers)|] == m.calls + CleanupCalls(m.vapi, m.handlers)
    ensures !m.vapi ==> CleanupCalls(m.vapi, m.handlers) == []
    ensures Inv(m) ==> Attached(Step(m, ev).calls) == {}
  {
    var x := Exit(m);
    var m' := Step(m, ev);
    assert |m'.calls| >= |x.calls| && m'.calls[..|x.calls|] == x.calls;
    if Inv(m) {
      AttachedAfterExit(m);
      AllEventsComplete(Attached(m.calls));
      var extra := m'.calls[|x.calls|..];
      assert m'.calls == x.calls + extra;
      AttachedAfterLifecycle(x.calls, extra);
    }
  }

  /**
   * A remote hang-up (`CALL_ENDED`) in `connecting` or `connected` ends in
   * `idle` after the cleanup; the transcript and the error are kept, and on a
   * reachable snapshot no listener remains attached.
   */
  lemma CallEndedEndsCall(m: Machine)
    requires m.state == Connecting || m.state.Connected?
    ensures Step(m, CallEnded) == Exit(m).(state := Idle)
    ensures Step(m, CallEnded).transcript == m.transcript && Step(m, CallEnded).error == m.error
    ensures Inv(m) ==> Attached(Step(m, CallEnded).calls) == {}
  {
    if Inv(m) {
      ExitCleansUp(m, CallEnded);
    }
  }

  /** `STOP_CALL` during a call ends in `idle` with no listener attached; a second `STOP_CALL` does nothing. */
  lemma StopCallEndsCall(m: Machine)
    requires Inv(m) && (m.state == Connecting || m.state.Connected?)
    ensures Step(m, StopCall).state == Idle
    ensures Attached(Step(m, StopCall).calls) == {}
    ensures Step(m, StopCall).calls == m.calls + CleanupCalls(true, m.handlers) + [Stop]
    ensures Step(Step(m, StopCall), StopCall) == Step(m, StopCall)
  {
    ExitCleansUp(m, StopCall);
  }

  /**
   * As written, the exit action of `idle` detaches the listeners before the
   * call starts, so once `START_CALL` has been accepted the SDK's
   * `call-start` (or any other event) no longer reaches the machine.
   */
  lemma ConnectingIsDetached(evs: seq<Event>, e: SdkEvent)
    requires Run(Started(), evs).state == Connecting
    ensures Attached(Run(Started(), evs).calls) == {}
    ensures Deliver(Run(Started(), evs), e) == Run(Started(), evs)
  {
    ReachableInv(evs);
  }

  /**
   * A complete call as the transition table sees it: start, speech, one user
   * line, speech end, hang-up. The events are sent to the machine directly;
   * through the SDK they would not arrive, since no listener is attached
   * once the machine is connecting (`ConnectingIsDetached`).
   */
  lemma CallScenario(m: Machine)
    requires Inv(m) && m.state == Connecting
    ensures var r := Run(m, [CallStarted, SpeechStarted, TranscriptReceived(TranscriptMessage(User, "hi")),
                             SpeechEnded, CallEnded]);
            r.state == Idle && r.transcript == [TranscriptMessage(User, "hi")] && r.error == None
  {
    var s1 := Step(m, CallStarted);
    var s2 := Step(s1, SpeechStarted);
    var s3 := Step(s2, TranscriptReceived(TranscriptMessage(User, "hi")));
    var s4 := Step(s3, SpeechEnded);
    assert s4.state == Connected(Listening) && s4.transcript == [TranscriptMessage(User, "hi")];
  }

  /** The running machine: one actor with its current state and context. */
  class CallSession {
    var state: State
    var vapi: bool
    var transcript: seq<TranscriptMessage>
    var error: Option<string>
    var handlers: set<EventName>
    ghost var log: seq<SdkCall>

    ghost function Snapshot(): Machine
      reads this
    {
      Machine(state, vapi, transcript, error, handlers, log)
    }

    /** Create and start the actor: the initial context, the entry action, the eventless transition. */
    constructor ()
      ensures Snapshot() == Started()
    {
      state := Initializing;
      vapi := false;
      transcript := [];
      error := None;
      handlers := {};
      log := [];
      new;
      InitializeVapi();
      if vapi {
        state := Idle;
      }
    }

    method InitializeVapi()
      modifies this
      ensures Snapshot() == Initialized(old(Snapshot()))
    {
      vapi := true;
      log := log + [On(CallStart)];
      log := log + [On(CallEnd)];
      log := log + [On(SpeechStart)];
      log := log + [On(SpeechEnd)];
      log := log + [On(ErrorEvent)];
      log := log + [On(Message)];
      handlers := {CallStart, CallEnd, SpeechStart, SpeechEnd, ErrorEvent, Message};
    }

    /** One guarded `vapi.off(name, handler)`: only a stored closure is detached. */
    method OffIfStored(n: EventName)
      modifies this`log
      ensures log == old(log) + OffIf(n, handlers)
    {
      if n in handlers {
        log := log + [Off(n)];
      }
    }

    method CleanupVapi()
      modifies this`log
      ensures log == old(log) + CleanupCalls(vapi, handlers)
    {
      if vapi {
        ghost var l0 := log;
        ghost var o1, o2, o3 := OffIf(CallStart, handlers), OffIf(CallEnd, handlers), OffIf(SpeechStart, handlers);
        ghost var o4, o5, o6 := OffIf(SpeechEnd, handlers), OffIf(ErrorEvent, handlers), OffIf(Message, handlers);
        OffIfStored(CallStart);
        OffIfStored(CallEnd);
        assert log == l0 + (o1 + o2);
        OffIfStored(SpeechStart);
        assert log == l0 + (o1 + o2 + o3);
        OffIfStored(SpeechEnd);
        assert log == l0 + (o1 + o2 + o3 + o4);
        OffIfStored(ErrorEvent);
        assert log == l0 + (o1 + o2 + o3 + o4 + o5);
        OffIfStored(Message);
        assert log == l0 + (o1 + o2 + o3 + o4 + o5 + o6);
        log := log + [Stop];
        assert log == l0 + (o1 + o2 + o3 + o4 + o5 + o6 + [Stop]);
      }
    }

    method StartCallAction()
      modifies this`log
      ensures log == old(log) + StartCalls(vapi)
    {
      if vapi {
        log := log + [Start(AssistantId)];
      }
    }

    method StopCallAction()
      modifies this`log
      ensures log == old(log) + StopCalls(vapi)
    {
      if vapi {
        log := log + [Stop];
      }
    }

    /** `actor.send(ev)`. */
    method Send(ev: Event)
      modifies this
      ensures Snapshot() == Step(old(Snapshot()), ev)
    {
      match state {
        case Initializing =>
        case Idle =>
          if ev.StartCall? {
            CleanupVapi();
            StartCallAction();
            state := Connecting;
          }
        case Connecting =>
          match ev {
            case CallStarted =>
              CleanupVapi();
              transcript := [];
              state := Connected(Listening);
            case CallEnded =>
              CleanupVapi();
              state := Idle;
            case ErrorOccurred(e) =>
              CleanupVapi();
              error := Some(e);
              state := Error;
            case StopCall =>
              CleanupVapi();
              StopCallAction();
              state := Idle;
            case _ =>
          }
        case Connected(sub) =>
          match ev {
            case CallEnded =>
              CleanupVapi();
              state := Idle;
            case StopCall =>
              CleanupVapi();
              StopCallAction();
              state := Idle;
            case ErrorOccurred(e) =>
              CleanupVapi();
              error := Some(e);
              state := Error;
            case TranscriptReceived(msg) =>
              transcript := transcript + [msg];
            case SpeechStarted =>
              if sub == Listening { state := Connected(Speaking); }
            case SpeechEnded =>
              if sub == Speaking { state := Connected(Listening); }
            case _ =>
          }
        case Error =>
          if ev.StartCall? {
            CleanupVapi();
            error := None;
            StartCallAction();
            state := Connecting;
          }
      }
    }

    /** A listener closure running on an SDK event. */
    method HandleEvent(e: SdkEvent)
      modifies this
      ensures Snapshot() == Handle(old(Snapshot()), e)
    {
      match e {
        case CallStartFired => Send(CallStarted);
        case CallEndFired => Send(CallEnded);
        case SpeechStartFired => Send(SpeechStarted);
        case SpeechEndFired => Send(SpeechEnded);
        case ErrorFired(err) => Send(ErrorOccurred(err));
        case MessageFired(msg) =>
          var t := ToTranscriptMessage(msg);
          if t.Some? {
            Send(TranscriptReceived(t.value));
          }
      }
    }
  }
}
