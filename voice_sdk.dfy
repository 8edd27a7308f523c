/**
 * The slice of the voice SDK that the widget touches: the six event names it
 * subscribes to, the calls it makes on the handle (`on`, `off`, `start`,
 * `stop`), the listeners those calls leave attached, and the translation of a
 * raw `message` event into a transcript entry.
 */
module VoiceSdk {
  import opened Wrappers

  /** The event names passed to `vapi.on` / `vapi.off`. */
  datatype EventName = CallStart | CallEnd | SpeechStart | SpeechEnd | ErrorEvent | Message

  const AllEvents: set<EventName> := {CallStart, CallEnd, SpeechStart, SpeechEnd, ErrorEvent, Message}

  /** The assistant identifier passed to `start`; a placeholder in the widget. */
  const AssistantId: string := ""

  /** One call made on the voice handle, as recorded in a call log. */
  datatype SdkCall = On(name: EventName) | Off(name: EventName) | Start(assistantId: string) | Stop

  /** An event the SDK emits, with its payload. */
  datatype SdkEvent =
    | CallStartFired
    | CallEndFired
    | SpeechStartFired
    | SpeechEndFired
    | ErrorFired(error: string)
    | MessageFired(message: SdkMessage)

  function NameOf(e: SdkEvent): EventName {
    match e
    case CallStartFired => CallStart
    case CallEndFired => CallEnd
    case SpeechStartFired => SpeechStart
    case SpeechEndFired => SpeechEnd
    case ErrorFired(_) => ErrorEvent
    case MessageFired(_) => Message
  }

  /** The fields of a `message` payload that the widget reads; a missing field is any other string. */
  datatype SdkMessage = SdkMessage(messageType: string, transcriptType: string, role: string, transcript: string)

  datatype Role = User | Assistant

  datatype TranscriptMessage = TranscriptMessage(role: Role, text: string)

  /**
   * The `message` listener's filter: only a final transcript segment becomes a
   * transcript entry, and every role other than "user" is the assistant.
   */
  function ToTranscriptMessage(m: SdkMessage): (r: Option<TranscriptMessage>)
    ensures r.Some? <==> m.messageType == "transcript" && m.transcriptType == "final"
    ensures r.Some? ==> (r.value.role == User <==> m.role == "user")
    ensures r.Some? ==> r.value.text == m.transcript
  {
    if m.messageType == "transcript" && m.transcriptType == "final" then
      Some(TranscriptMessage(if m.role == "user" then User else Assistant, m.transcript))
    else
      None
  }

  /** The six `on` calls of the widget's set-up, in source order. */
  function RegisterCalls(): seq<SdkCall> {
    [On(CallStart), On(CallEnd), On(SpeechStart), On(SpeechEnd), On(ErrorEvent), On(Message)]
  }

  /** The listeners attached after one call. */
  function ApplyCall(s: set<EventName>, c: SdkCall): set<EventName> {
    match c
    case On(n) => s + {n}
    case Off(n) => s - {n}
    case _ => s
  }

  /** The listeners attached after a sequence of calls, starting from `s`. */
  function Replay(s: set<EventName>, calls: seq<SdkCall>): set<EventName>
    decreases |calls|
  {
    if calls == [] then s else Replay(ApplyCall(s, calls[0]), calls[1..])
  }

  /** The listeners attached on a fresh handle after the logged calls. */
  function Attached(calls: seq<SdkCall>): set<EventName> {
    Replay({}, calls)
  }

  /** A call that neither attaches nor detaches a listener. */
  predicate Lifecycle(c: SdkCall) {
    c.Start? || c.Stop?
  }

  lemma {:induction false} ReplayAppend(s: set<EventName>, a: seq<SdkCall>, b: seq<SdkCall>)
    ensures Replay(s, a + b) == Replay(Replay(s, a), b)
    decreases |a|
  {
    if a == [] {
      assert a + b == b;
    } else {
      assert (a + b)[0] == a[0];
      assert (a + b)[1..] == a[1..] + b;
      ReplayAppend(ApplyCall(s, a[0]), a[1..], b);
    }
  }

  /** Start and stop calls leave the attached listeners as they are. */
  lemma {:induction false} ReplayLifecycle(s: set<EventName>, calls: seq<SdkCall>)
    requires forall i :: 0 <= i < |calls| ==> Lifecycle(calls[i])
    ensures Replay(s, calls) == s
    decreases |calls|
  {
    if calls != [] {
      assert Lifecycle(calls[0]);
      ReplayLifecycle(s, calls[1..]);
    }
  }

  /** The six names are every event the SDK has. */
  lemma AllEventsComplete(s: set<EventName>)
    ensures s <= AllEvents
  {
    forall n | n in s
      ensures n in AllEvents
    {
      assert n.CallStart? || n.CallEnd? || n.SpeechStart? || n.SpeechEnd? || n.ErrorEvent? || n.Message?;
    }
  }

  /** The set-up registers exactly one listener for each of the six event names. */
  lemma RegisterAttachesAll(s: set<EventName>)
    ensures Replay(s, RegisterCalls()) == s + AllEvents
    ensures |RegisterCalls()| == 6
    ensures forall i, j :: 0 <= i < j < 6 ==> RegisterCalls()[i].name != RegisterCalls()[j].name
  {
    var r := RegisterCalls();
    assert r[1..][1..][1..][1..][1..][1..] == [];
    assert Replay(s, r) == s + {CallStart} + {CallEnd} + {SpeechStart} + {SpeechEnd} + {ErrorEvent} + {Message};
  }
}
