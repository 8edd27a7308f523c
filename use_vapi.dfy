/**
 * The flag-based call tracker (`useVapi`): three booleans and a transcript,
 * each set by one of the six SDK listeners or by the `startCall` / `stopCall`
 * functions the hook returns.
 */
module UseVapi {
  import opened Wrappers
  import opened VoiceSdk

  /** The hook's state cells and the log of calls made on its handle. */
  datatype Hook = Hook(
    vapi: bool,
    isConnected: bool,
    isConnecting: bool,
    isSpeaking: bool,
    transcript: seq<TranscriptMessage>,
    calls: seq<SdkCall>)

  /** What can happen to a mounted hook: an SDK event, or a call of `startCall` / `stopCall`. */
  datatype HookEvent = Fired(e: SdkEvent) | StartCallRequested | StopCallRequested

  /** The `useState` initial values. */
  function Initial(): Hook {
    Hook(false, false, false, false, [], [])
  }

  /** The mount effect: create the handle, store it, attach the six listeners. */
  function Mounted(h: Hook): Hook {
    h.(vapi := true, calls := h.calls + RegisterCalls())
  }

  /** The six listeners' bodies. */
  function Callback(h: Hook, e: SdkEvent): (r: Hook)
    ensures r.vapi == h.vapi && r.calls == h.calls
    ensures r.isConnected != h.isConnected ==> e.CallStartFired? || e.CallEndFired?
    ensures r.isConnecting != h.isConnecting ==> e.CallStartFired? || e.CallEndFired?
    ensures r.isSpeaking != h.isSpeaking ==> e.SpeechStartFired? || e.SpeechEndFired? || e.CallEndFired?
    ensures r.transcript != h.transcript ==> e.CallStartFired? || e.MessageFired?
    ensures e.MessageFired? ==> h.transcript <= r.transcript && |r.transcript| <= |h.transcript| + 1
  {
    match e
    case CallStartFired => h.(isConnected := true, isConnecting := false, transcript := [])
    case CallEndFired => h.(isConnected := false, isConnecting := false, isSpeaking := false)
    case SpeechStartFired => h.(isSpeaking := true)
    case SpeechEndFired => h.(isSpeaking := false)
    case ErrorFired(_) => h
    case MessageFired(m) =>
      match ToTranscriptMessage(m)
      case Some(t) => h.(transcript := h.transcript + [t])
      case None => h
  }

  /** One event on a mounted hook; `startCall` / `stopCall` touch no SDK listener. */
  function HookStep(h: Hook, ev: HookEvent): (r: Hook)
    ensures r.vapi == h.vapi && h.calls <= r.calls
    ensures forall i :: |h.calls| <= i < |r.calls| ==> r.calls[i].Start? || r.calls[i].Stop?
    ensures !ev.Fired? ==>
      r.transcript == h.transcript && r.isConnected == h.isConnected && r.isSpeaking == h.isSpeaking
    ensures ev == StartCallRequested ==> r.isConnecting
  {
    match ev
    case Fired(e) => Callback(h, e)
    case StartCallRequested =>
      h.(isConnecting := true, calls := h.calls + (if h.vapi then [Start(AssistantId)] else []))
    case StopCallRequested =>
      h.(calls := h.calls + (if h.vapi then [Stop] else []))
  }

  function HookRun(h: Hook, evs: seq<HookEvent>): Hook
    decreases |evs|
  {
    if evs == [] then h else HookRun(HookStep(h, evs[0]), evs[1..])
  }

  /** The transcript entries the events carry: their final transcript segments, in order. */
  function Finals(evs: seq<HookEvent>): seq<TranscriptMessage>
    decreases |evs|
  {
    if evs == [] then []
    else
      var first :=
        if evs[0].Fired? && evs[0].e.MessageFired? && ToTranscriptMessage(evs[0].e.message).Some?
        then [ToTranscriptMessage(evs[0].e.message).value]
        else [];
      first + Finals(evs[1..])
  }

  predicate NoCallStart(evs: seq<HookEvent>) {
    forall i :: 0 <= i < |evs| ==> evs[i] != Fired(CallStartFired)
  }

  lemma {:induction false} HookRunAppend(h: Hook, a: seq<HookEvent>, b: seq<HookEvent>)
    ensures HookRun(h, a + b) == HookRun(HookRun(h, a), b)
    decreases |a|
  {
    if a == [] {
      assert a + b == b;
    } else {
      assert (a + b)[0] == a[0];
      assert (a + b)[1..] == a[1..] + b;
      HookRunAppend(HookStep(h, a[0]), a[1..], b);
    }
  }

  /** Without a `call-start`, the transcript only grows, by the final segments received. */
  lemma {:induction false} TranscriptWithoutCallStart(h: Hook, evs: seq<HookEvent>)
    requires NoCallStart(evs)
    ensures HookRun(h, evs).transcript == h.transcript + Finals(evs)
    decreases |evs|
  {
    if evs == [] {
    } else {
      var h' := HookStep(h, evs[0]);
      assert evs[0] != Fired(CallStartFired);
      assert NoCallStart(evs[1..]) by {
        forall i | 0 <= i < |evs[1..]| ensures evs[1..][i] != Fired(CallStartFired) {
          assert evs[1..][i] == evs[i + 1];
        }
      }
      TranscriptWithoutCallStart(h', evs[1..]);
      assert h'.transcript == h.transcript + Finals(evs[..1]) by {
        assert evs[..1][1..] == [];
      }
      assert Finals(evs) == Finals(evs[..1]) + Finals(evs[1..]) by {
        assert evs[..1][0] == evs[0];
      }
    }
  }

  /** The transcript is exactly the final segments received since the last `call-start`. */
  lemma TranscriptSinceLastCallStart(h: Hook, pre: seq<HookEvent>, post: seq<HookEvent>)
    requires NoCallStart(post)
    ensures HookRun(h, pre + [Fired(CallStartFired)] + post).transcript == Finals(post)
  {
    HookRunAppend(h, pre + [Fired(CallStartFired)], post);
    HookRunAppend(h, pre, [Fired(CallStartFired)]);
    var cleared := HookRun(h, pre + [Fired(CallStartFired)]);
    assert cleared.transcript == [];
    TranscriptWithoutCallStart(cleared, post);
  }

  /** The hook never detaches a listener: whatever happens, the attached set is unchanged. */
  lemma {:induction false} ListenersStayAttached(h: Hook, evs: seq<HookEvent>)
    ensures Attached(HookRun(h, evs).calls) == Attached(h.calls)
    decreases |evs|
  {
    if evs != [] {
      var h' := HookStep(h, evs[0]);
      var extra := h'.calls[|h.calls|..];
      assert h'.calls == h.calls + extra;
      assert forall i :: 0 <= i < |extra| ==> Lifecycle(extra[i]);
      ReplayAppend({}, h.calls, extra);
      ReplayLifecycle(Attached(h.calls), extra);
      ListenersStayAttached(h', evs[1..]);
    }
  }

  /** After mounting, all six listeners stay attached for the life of the hook. */
  lemma MountedListenersStay(evs: seq<HookEvent>)
    ensures Attached(HookRun(Mounted(Initial()), evs).calls) == AllEvents
  {
    assert Mounted(Initial()).calls == RegisterCalls();
    RegisterAttachesAll({});
    ListenersStayAttached(Mounted(Initial()), evs);
  }

  /**
   * The flags are independent cells: a `speech-start` before any
   * `call-start` leaves `isSpeaking` set while `isConnected` is not.
   */
  lemma SpeakingWithoutConnection()
    ensures var h := HookStep(Mounted(Initial()), Fired(SpeechStartFired));
            h.isSpeaking && !h.isConnected && !h.isConnecting
  {
  }

  /** However the flags stood, a `call-end` clears all three. */
  lemma CallEndClearsFlags(h: Hook, evs: seq<HookEvent>)
    ensures var r := HookRun(h, evs + [Fired(CallEndFired)]);
            !r.isConnected && !r.isConnecting && !r.isSpeaking
            && r.transcript == HookRun(h, evs).transcript
  {
    HookRunAppend(h, evs, [Fired(CallEndFired)]);
  }

  /** The hook's state cells, updated by its callbacks. */
  class VapiHook {
    var vapi: bool
    var isConnected: bool
    var isConnecting: bool
    var isSpeaking: bool
    var transcript: seq<TranscriptMessage>
    ghost var log: seq<SdkCall>

    ghost function View(): Hook
      reads this
    {
      Hook(vapi, isConnected, isConnecting, isSpeaking, transcript, log)
    }

    constructor ()
      ensures !isConnected && !isConnecting && !isSpeaking && transcript == []
      ensures !vapi && log == []
      ensures View() == Initial()
    {
      vapi, isConnected, isConnecting, isSpeaking := false, false, false, false;
      transcript := [];
      log := [];
    }

    /** The mount effect. */
    method Mount()
      modifies this
      ensures vapi && log == old(log) + RegisterCalls()
      ensures View() == Mounted(old(View()))
    {
      vapi := true;
      log := log + [On(CallStart), On(CallEnd), On(SpeechStart), On(SpeechEnd), On(ErrorEvent), On(Message)];
    }

    method OnCallStart()
      modifies this
      ensures isConnected && !isConnecting && transcript == []
      ensures isSpeaking == old(isSpeaking) && vapi == old(vapi) && log == old(log)
      ensures View() == HookStep(old(View()), Fired(CallStartFired))
    {
      isConnected := true;
      isConnecting := false;
      transcript := [];
    }

    method OnCallEnd()
      modifies this
      ensures !isConnected && !isConnecting && !isSpeaking
      ensures transcript == old(transcript) && vapi == old(vapi) && log == old(log)
      ensures View() == HookStep(old(View()), Fired(CallEndFired))
    {
      isConnected := false;
      isConnecting := false;
      isSpeaking := false;
    }

    method OnSpeechStart()
      modifies this`isSpeaking
      ensures isSpeaking
      ensures View() == HookStep(old(View()), Fired(SpeechStartFired))
    {
      isSpeaking := true;
    }

    method OnSpeechEnd()
      modifies this`isSpeaking
      ensures !isSpeaking
      ensures View() == HookStep(old(View()), Fired(SpeechEndFired))
    {
      isSpeaking := false;
    }

    /** The `error` listener only logs to the console: no state changes. */
    method OnError(error: string)
      ensures View() == HookStep(View(), Fired(ErrorFired(error)))
    {
    }

    method OnMessage(message: SdkMessage)
      modifies this`transcript
      ensures transcript == old(transcript) + (match ToTranscriptMessage(message)
                                                case Some(t) => [t]
                                                case None => [])
      ensures View() == HookStep(old(View()), Fired(MessageFired(message)))
    {
      if message.messageType == "transcript" && message.transcriptType == "final" {
        transcript := transcript + [TranscriptMessage(if message.role == "user" then User else Assistant,
                                                      message.transcript)];
      }
    }

    method StartCall()
      modifies this`isConnecting, this`log
      ensures isConnecting
      ensures log == old(log) + (if vapi then [Start(AssistantId)] else [])
      ensures View() == HookStep(old(View()), StartCallRequested)
    {
      if vapi {
        log := log + [Start(AssistantId)];
      }
      isConnecting := true;
    }

    /** `stopCall` only asks the SDK to stop; the flags change when `call-end` arrives. */
    method StopCall()
      modifies this`log
      ensures log == old(log) + (if vapi then [Stop] else [])
      ensures View() == HookStep(old(View()), StopCallRequested)
    {
      if vapi {
        log := log + [Stop];
      }
    }

    /** The mount effect's clean-up: stop the handle it created; the listeners stay attached. */
    method Unmount()
      requires vapi
      modifies this`log
      ensures log == old(log) + [Stop]
      ensures Attached(log) == Attached(old(log))
    {
      log := log + [Stop];
      ReplayAppend({}, old(log), [Stop]);
    }
  }
}
