/** The floating voice-assistant widget: SDK events update three flags and an
    append-only transcript; the user starts and ends calls. */
module VoiceWidget {
  import opened Wrappers

  /** One transcript line, `{role, text}`. */
  datatype Utterance = Utterance(role: string, text: string)

  /** A `message` payload: its `type`, and for transcripts the speaker role
      and the text. */
  datatype Message = Message(kind: string, role: string, transcript: string)

  /** The events the SDK instance emits, plus the expiry of a thinking timer
      that a `speech-end` handler scheduled. */
  datatype VapiEvent =
    | CallStart
    | CallEnd
    | SpeechStart
    | SpeechEnd
    | MessageReceived(message: Message)
    | PlatformError
    | ThinkingTimerFired

  /** What the widget asks of the SDK instance. */
  datatype Request = Start(assistantId: string) | Stop

  /** The widget's state. `pendingThinkingTimers` counts the thinking timers
      scheduled and not yet fired; nothing ever cancels them. */
  datatype WidgetState = WidgetState(
    hasInstance: bool,
    isConnected: bool,
    isSpeaking: bool,
    isThinking: bool,
    transcript: seq<Utterance>,
    pendingThinkingTimers: nat)

  const Unmounted := WidgetState(false, false, false, false, [], 0)

  /** Milliseconds between `speech-end` and its timer clearing `isThinking`. */
  const ThinkingWindowMs := 1200

  /** The event handlers registered on the SDK instance. A timer expiry with
      no timer outstanding cannot happen and leaves the state alone. */
  function OnEvent(s: WidgetState, e: VapiEvent): (r: WidgetState)
    ensures r.hasInstance == s.hasInstance
    ensures s.transcript <= r.transcript && |r.transcript| <= |s.transcript| + 1
  {
    match e
    case CallStart => s.(isConnected := true, isThinking := false)
    case CallEnd => s.(isConnected := false, isSpeaking := false, isThinking := false)
    case SpeechStart => s.(isSpeaking := true, isThinking := false)
    case SpeechEnd =>
      s.(isSpeaking := false, isThinking := true, pendingThinkingTimers := s.pendingThinkingTimers + 1)
    case MessageReceived(m) =>
      if m.kind == "transcript" then s.(transcript := s.transcript + [Utterance(m.role, m.transcript)])
      else s
    case PlatformError => s.(isThinking := false, isSpeaking := false)
    case ThinkingTimerFired =>
      if s.pendingThinkingTimers == 0 then s
      else s.(isThinking := false, pendingThinkingTimers := s.pendingThinkingTimers - 1)
  }

  /** The state after a sequence of events, in order. */
  function Run(s: WidgetState, events: seq<VapiEvent>): WidgetState
    decreases |events|
  {
    if events == [] then s else Run(OnEvent(s, events[0]), events[1..])
  }

  /** The utterances the transcript messages among `events` carry, in order. */
  function Utterances(events: seq<VapiEvent>): (u: seq<Utterance>)
    ensures |u| <= |events|
  {
    if events == [] then []
    else
      var rest := Utterances(events[1..]);
      match events[0]
      case MessageReceived(m) =>
        if m.kind == "transcript" then [Utterance(m.role, m.transcript)] + rest else rest
      case _ => rest
  }

  /** The flag invariant: the assistant is never shown speaking and thinking. */
  predicate Exclusive(s: WidgetState) {
    !(s.isSpeaking && s.isThinking)
  }

  /** Each handler on its own: `call-start` connects and stops thinking;
      `call-end` clears all three flags; `speech-start` and `speech-end`
      swap speaking and thinking, the latter scheduling one more timer;
      a pending timer's expiry clears thinking alone (and one with none
      pending changes nothing); no other event touches the timer count;
      `error` clears speaking and thinking and leaves the connection alone;
      only a transcript message touches the transcript, by appending. */
  lemma EventEffects(s: WidgetState, e: VapiEvent)
    ensures var r := OnEvent(s, e);
            e == CallStart ==> r.isConnected && !r.isThinking && r.isSpeaking == s.isSpeaking
    ensures var r := OnEvent(s, e);
            e == CallEnd ==> !r.isConnected && !r.isSpeaking && !r.isThinking
    ensures var r := OnEvent(s, e);
            e == SpeechStart ==> r.isSpeaking && !r.isThinking && r.isConnected == s.isConnected
    ensures var r := OnEvent(s, e);
            e == SpeechEnd ==> !r.isSpeaking && r.isThinking && r.isConnected == s.isConnected
                               && r.pendingThinkingTimers == s.pendingThinkingTimers + 1
    ensures var r := OnEvent(s, e);
            e == ThinkingTimerFired && s.pendingThinkingTimers > 0 ==>
              !r.isThinking && r.isSpeaking == s.isSpeaking && r.isConnected == s.isConnected
              && r.pendingThinkingTimers == s.pendingThinkingTimers - 1
    ensures var r := OnEvent(s, e);
            e == ThinkingTimerFired && s.pendingThinkingTimers == 0 ==> r == s
    ensures var r := OnEvent(s, e);
            e != SpeechEnd && e != ThinkingTimerFired ==> r.pendingThinkingTimers == s.pendingThinkingTimers
    ensures var r := OnEvent(s, e);
            e == PlatformError ==> !r.isSpeaking && !r.isThinking && r.isConnected == s.isConnected
    ensures var r := OnEvent(s, e);
            !e.MessageReceived? ==> r.transcript == s.transcript
    ensures var r := OnEvent(s, e);
            e.MessageReceived? ==> r.isConnected == s.isConnected && r.isSpeaking == s.isSpeaking
                                   && r.isThinking == s.isThinking
    ensures OnEvent(s, e).hasInstance == s.hasInstance
  {
  }

  /** Only a timer's own expiry lowers the count of pending timers: the
      source has no way to cancel one. */
  lemma TimersNeverCancelled(s: WidgetState, e: VapiEvent)
    requires e != ThinkingTimerFired
    ensures OnEvent(s, e).pendingThinkingTimers >= s.pendingThinkingTimers
  {
  }

  /** Every single event keeps speaking and thinking exclusive. */
  lemma OnEventKeepsExclusive(s: WidgetState, e: VapiEvent)
    requires Exclusive(s)
    ensures Exclusive(OnEvent(s, e))
  {
  }

  /** Over every sequence of events, speaking and thinking are never both on. */
  lemma {:induction false} RunKeepsExclusive(s: WidgetState, events: seq<VapiEvent>)
    requires Exclusive(s)
    ensures Exclusive(Run(s, events))
    decreases |events|
  {
    if events != [] {
      OnEventKeepsExclusive(s, events[0]);
      RunKeepsExclusive(OnEvent(s, events[0]), events[1..]);
    }
  }

  /** The transcript is append-only: a run of events appends exactly the
      utterances of its transcript messages, in order, and keeps every
      earlier entry. */
  lemma {:induction false} RunAppendsTranscript(s: WidgetState, events: seq<VapiEvent>)
    ensures Run(s, events).transcript == s.transcript + Utterances(events)
    decreases |events|
  {
    if events != [] {
      var s1 := OnEvent(s, events[0]);
      RunAppendsTranscript(s1, events[1..]);
      match events[0]
      case MessageReceived(m) =>
        if m.kind == "transcript" {
          assert s1.transcript + Utterances(events[1..])
              == s.transcript + ([Utterance(m.role, m.transcript)] + Utterances(events[1..]));
        }
      case _ =>
    }
  }

  /** The header line: "Assistant Speaking" wins over "Thinking...", which
      wins over "Listening...". */
  function HeaderLabel(s: WidgetState): (caption: string)
    ensures caption == "Listening..." <==> !s.isSpeaking && !s.isThinking
    ensures caption == "Thinking..." <==> !s.isSpeaking && s.isThinking
    ensures caption == "Assistant Speaking" <==> s.isSpeaking
  {
    if s.isSpeaking then "Assistant Speaking"
    else if s.isThinking then "Thinking..."
    else "Listening..."
  }

  /** Under the flag invariant the label names exactly the flag that is on. */
  lemma HeaderLabelShowsFlag(s: WidgetState)
    requires Exclusive(s)
    ensures HeaderLabel(s) == "Thinking..." <==> s.isThinking
    ensures HeaderLabel(s) == "Assistant Speaking" <==> s.isSpeaking
  {
  }

  /** The mount effect creates the SDK instance. */
  function Mount(s: WidgetState): (r: WidgetState)
    ensures r.hasInstance
    ensures r.(hasInstance := s.hasInstance) == s
  {
    s.(hasInstance := true)
  }

  /** startCall: with an instance, empty the transcript and request a start;
      without one, nothing. The flags are left to the events that follow. */
  function StartCall(s: WidgetState, assistantId: string): (r: (WidgetState, Option<Request>))
    ensures s.hasInstance ==> r.0 == s.(transcript := []) && r.1 == Some(Start(assistantId))
    ensures !s.hasInstance ==> r.0 == s && r.1 == None
  {
    if s.hasInstance then (s.(transcript := []), Some(Start(assistantId))) else (s, None)
  }

  /** endCall only requests a stop; it changes no state itself. */
  function EndCall(s: WidgetState): (request: Option<Request>)
    ensures request.Some? <==> s.hasInstance
    ensures request.Some? ==> request.value == Stop
  {
    if s.hasInstance then Some(Stop) else None
  }

  /** After startCall the transcript holds exactly the utterances that arrive
      afterwards: nothing from an earlier call survives. */
  lemma StartCallClearsTranscript(s: WidgetState, assistantId: string, events: seq<VapiEvent>)
    requires s.hasInstance
    ensures Run(StartCall(s, assistantId).0, events).transcript == Utterances(events)
  {
    RunAppendsTranscript(StartCall(s, assistantId).0, events);
  }

  /** A timer from an earlier `speech-end` is not cancelled by a later one: it
      fires first and ends the newer thinking window early, while the newer
      window's own timer is still pending. */
  lemma StaleTimerEndsNewerWindow(s: WidgetState)
    requires s.pendingThinkingTimers == 0
    ensures var r := Run(s, [SpeechEnd, SpeechStart, SpeechEnd, ThinkingTimerFired]);
            !r.isThinking && r.pendingThinkingTimers == 1
  {
  }

  /** The flags are not tied to the connection: a `speech-end` that arrives
      after `call-end` leaves the state thinking while disconnected. Nothing
      displays it, since the label is drawn only while connected and
      `call-start` clears the flag. */
  lemma ThinkingWhileDisconnected(s: WidgetState)
    ensures var r := Run(s, [CallEnd, SpeechEnd]);
            !r.isConnected && r.isThinking
  {
  }

  /** `call-start` does not clear the speaking flag: a `speech-start` that
      arrives after `call-end` makes the next call open with the label
      "Assistant Speaking". */
  lemma SpeakingCarriesIntoNextCall(s: WidgetState)
    ensures var r := Run(s, [CallEnd, SpeechStart, CallStart]);
            r.isConnected && r.isSpeaking && HeaderLabel(r) == "Assistant Speaking"
  {
  }

  /** The End button of a window still animating out after `call-end`
      asks for a stop again, with the widget already disconnected. */
  lemma EndCallWhileClosing(s: WidgetState)
    requires s.hasInstance
    ensures var r := OnEvent(s, CallEnd);
            !r.isConnected && EndCall(r) == Some(Stop)
  {
  }

  /** A short call: connected, the assistant speaks, stops, thinks, and once
      the timer fires the widget is listening again. */
  lemma CallScenario(assistantId: string)
    ensures var (s0, request) := StartCall(Mount(Unmounted), assistantId);
            var r := Run(s0, [CallStart, SpeechStart, SpeechEnd, ThinkingTimerFired]);
            request == Some(Start(assistantId))
            && r.isConnected && !r.isSpeaking && !r.isThinking
            && HeaderLabel(r) == "Listening..."
  {
  }

  /** The widget as the component holds it: the instance, three flags and the
      transcript, each updated in place by a handler or a button. */
  class VapiWidgetView {
    const assistantId: string
    var hasInstance: bool
    var isConnected: bool
    var isSpeaking: bool
    var isThinking: bool
    var transcript: seq<Utterance>
    var pendingThinkingTimers: nat

    function State(): WidgetState
      reads this
    {
      WidgetState(hasInstance, isConnected, isSpeaking, isThinking, transcript, pendingThinkingTimers)
    }

    constructor (assistantId: string)
      ensures State() == Unmounted && this.assistantId == assistantId
    {
      this.assistantId := assistantId;
      hasInstance := false;
      isConnected := false;
      isSpeaking := false;
      isThinking := false;
      transcript := [];
      pendingThinkingTimers := 0;
    }

    method MountEffect()
      modifies this
      ensures State() == Mount(old(State()))
    {
      hasInstance := true;
    }

    /** Dispatches one event to its handler; `speech-end` also returns the
        delay of the thinking timer it schedules. */
    method Handle(e: VapiEvent) returns (timerMs: Option<nat>)
      modifies this
      ensures State() == OnEvent(old(State()), e)
      ensures old(Exclusive(State())) ==> Exclusive(State())
      ensures timerMs.Some? <==> e == SpeechEnd
      ensures timerMs.Some? ==> timerMs.value == ThinkingWindowMs
    {
      timerMs := None;
      match e
      case CallStart =>
        isConnected := true;
        isThinking := false;
      case CallEnd =>
        isConnected := false;
        isSpeaking := false;
        isThinking := false;
      case SpeechStart =>
        isSpeaking := true;
        isThinking := false;
      case SpeechEnd =>
        isSpeaking := false;
        isThinking := true;
        pendingThinkingTimers := pendingThinkingTimers + 1;
        timerMs := Some(ThinkingWindowMs);
      case MessageReceived(m) =>
        if m.kind == "transcript" {
          transcript := transcript + [Utterance(m.role, m.transcript)];
        }
      case PlatformError =>
        isThinking := false;
        isSpeaking := false;
      case ThinkingTimerFired =>
        if pendingThinkingTimers > 0 {
          isThinking := false;
          pendingThinkingTimers := pendingThinkingTimers - 1;
        }
    }

    /** The mic button, rendered only while not connected. */
    method StartCallButton() returns (request: Option<Request>)
      requires !isConnected
      modifies this
      ensures (State(), request) == StartCall(old(State()), assistantId)
    {
      request := None;
      if hasInstance {
        transcript := [];
        request := Some(Start(assistantId));
      }
    }

    /** The chat window's End button. The window is mounted while connected
        and stays clickable while it animates out after `call-end`, so the
        button can run with the widget already disconnected. */
    method EndCallButton() returns (request: Option<Request>)
      ensures request == EndCall(State())
    {
      request := None;
      if hasInstance {
        request := Some(Stop);
      }
    }

    /** The mount effect's cleanup always asks the instance it created to stop. */
    method Unmount() returns (request: Request)
      requires hasInstance
      ensures request == Stop
    {
      request := Stop;
    }
  }
}
