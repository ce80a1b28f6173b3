/** The session and playback state of the remote audio server as a value,
    with one function per step, each modelled as atomic. The class in remote_io.dfy is
    proved to follow these functions; the lemmas in properties.dfy state what
    the steps promise. */
module Session {
  import opened Protocol

  /** Everything a step can observe or change.
      clients:       the connected clients (`_clients`);
      queue:         the sample queue, oldest entry first (`_sample_queue`);
      listening:     `_is_listening`;
      playing:       `_is_playing`;
      stopRequested: whether `_stop_event` is set;
      outbox:        every frame and close handed to the transport, in order;
      timers:        the playback timers scheduled and not yet fired, by number;
      timersStarted: how many playback timers were ever scheduled. */
  datatype State = State(
    clients: set<ClientId>,
    queue: seq<Entry>,
    listening: bool,
    playing: bool,
    stopRequested: bool,
    outbox: seq<Outbound>,
    timers: set<nat>,
    timersStarted: nat)

  /** The state right after construction. */
  const Initial: State := State({}, [], false, false, false, [], {}, 0)

  /** What every reachable state satisfies. */
  predicate Inv(s: State)
  {
    && |s.clients| <= MAX_CLIENTS
    && (s.listening ==> !s.stopRequested)
    && (forall t :: t in s.timers ==> t < s.timersStarted)
  }

  /** `order` lists every element of `xs` exactly once: an iteration order of the set. */
  ghost predicate Enumerates(order: seq<ClientId>, xs: set<ClientId>)
    decreases |order|
  {
    if order == [] then xs == {}
    else
      var c := order[|order| - 1];
      c in xs && Enumerates(order[..|order| - 1], xs - {c})
  }

  /** The clients of `order`, in that order, whose send did not fail. */
  function Survivors(order: seq<ClientId>, failing: set<ClientId>): (r: seq<ClientId>)
    ensures |r| <= |order|
  {
    if order == [] then []
    else
      var rest := Survivors(order[..|order| - 1], failing);
      var c := order[|order| - 1];
      if c in failing then rest else rest + [c]
  }

  /** The same action for each client of `to`, in that order. */
  function Notify(to: seq<ClientId>, a: Action): (r: seq<Outbound>)
    ensures |r| == |to|
  {
    if to == [] then [] else Notify(to[..|to| - 1], a) + [Outbound(to[|to| - 1], a)]
  }

  lemma SurvivorsSnoc(order: seq<ClientId>, c: ClientId, failing: set<ClientId>)
    ensures Survivors(order + [c], failing)
         == if c in failing then Survivors(order, failing) else Survivors(order, failing) + [c]
  {
    assert (order + [c])[..|order|] == order;
  }

  lemma NotifySnoc(to: seq<ClientId>, c: ClientId, a: Action)
    ensures Notify(to + [c], a) == Notify(to, a) + [Outbound(c, a)]
  {
    assert (to + [c])[..|to|] == to;
  }

  /** Extending the iteration by one client extends what was handed to the transport by at most one. */
  lemma NotifySurvivorsSnoc(sent: seq<Outbound>, order: seq<ClientId>, c: ClientId, failing: set<ClientId>, a: Action)
    ensures sent + Notify(Survivors(order + [c], failing), a)
         == if c in failing then sent + Notify(Survivors(order, failing), a)
            else sent + Notify(Survivors(order, failing), a) + [Outbound(c, a)]
  {
    SurvivorsSnoc(order, c, failing);
    NotifySnoc(Survivors(order, failing), c, a);
  }

  lemma EnumeratesSnoc(order: seq<ClientId>, xs: set<ClientId>, c: ClientId)
    requires Enumerates(order, xs) && c !in xs
    ensures Enumerates(order + [c], xs + {c})
  {
    assert (order + [c])[..|order|] == order;
    assert (xs + {c}) - {c} == xs;
  }

  /** A broadcast of `f`, iterating the clients in `order`: every client whose
      send does not fail is sent `f`; afterwards the failing ones are discarded. */
  function Broadcast(s: State, f: Frame, order: seq<ClientId>, failing: set<ClientId>): State
  {
    s.(outbox := s.outbox + Notify(Survivors(order, failing), Send(f)),
       clients := s.clients - failing)
  }

  lemma BroadcastKeepsInv(s: State, f: Frame, order: seq<ClientId>, failing: set<ClientId>)
    requires Inv(s)
    ensures Inv(Broadcast(s, f, order, failing))
  {
    assert |s.clients - failing| <= |s.clients|;
  }

  /** Whether a connecting client is admitted. */
  predicate Admits(s: State)
  {
    |s.clients| < MAX_CLIENTS
  }

  /** The connect step of handle_client: below capacity the client is added and
      sent the config frame; at capacity it is sent an error and closed. */
  function Connect(s: State, c: ClientId): State
  {
    if !Admits(s) then
      s.(outbox := s.outbox + [Outbound(c, Send(Error(CAPACITY_MESSAGE))), Outbound(c, Close)])
    else
      s.(clients := s.clients + {c}, outbox := s.outbox + [Outbound(c, Send(ConfigFrame))])
  }

  /** One turn of handle_client's receive loop for a message from `c`; the
      boolean says whether the loop goes on reading. `vad` scores a chunk. */
  function Receive(s: State, c: ClientId, msg: Inbound, threshold: real, vad: seq<real> -> real): (State, bool)
  {
    if s.stopRequested then (s, false)
    else
      match msg
      case Audio(data) =>
        if |data| > 0 then (s.(queue := s.queue + [Entry(data, vad(data) > threshold)]), true)
        else (s, true)
      case Ping => (s.(outbox := s.outbox + [Outbound(c, Send(Pong))]), true)
      case Other => (s, true)
      case Malformed => (s, true)
      case Unhandled => (s, false)
  }

  /** The `finally` of handle_client: the client is discarded. */
  function Disconnect(s: State, c: ClientId): State
  {
    s.(clients := s.clients - {c})
  }

  function StartListening(s: State): State
  {
    if s.listening then s else s.(listening := true, stopRequested := false)
  }

  /** Stops listening: a close is scheduled for each client in `order` (failures
      to schedule are swallowed) and the client set is emptied. */
  function StopListening(s: State, order: seq<ClientId>, failing: set<ClientId>): State
  {
    if !s.listening then s
    else
      s.(listening := false, stopRequested := true,
         outbox := s.outbox + Notify(Survivors(order, failing), Close),
         clients := {})
  }

  function StopSpeaking(s: State, order: seq<ClientId>, failing: set<ClientId>): State
  {
    if !s.playing then s else Broadcast(s.(playing := false), StopPlayback, order, failing)
  }

  /** The playing part of start_speaking, after the current playback is stopped:
      with no client, playback is turned off again and nothing is sent. With
      clients, the audio is broadcast in `order`, playback is on, and a
      completion timer is scheduled, unless the rate is 0: then computing the
      duration raises after the broadcast and no timer starts. */
  function Play(s: State, audio: seq<real>, rate: int, text: string,
                order: seq<ClientId>, failing: set<ClientId>): (State, Outcome)
  {
    if s.clients == {} then (s.(playing := false), Done)
    else
      var sent := Broadcast(s.(playing := true), AudioPlayback(audio, rate, text), order, failing);
      if rate == 0 then (sent, Raised(ZERO_DIVISION_MESSAGE))
      else (sent.(timers := sent.timers + {sent.timersStarted}, timersStarted := sent.timersStarted + 1), Done)
  }

  /** start_speaking: empty audio raises before anything changes; otherwise a
      missing rate is 16000, the current playback is stopped (broadcast in
      `stopOrder`) and the audio is played (broadcast in `order`). */
  function StartSpeaking(s: State, audio: seq<real>, sampleRate: Option<int>, text: string,
                         stopOrder: seq<ClientId>, stopFailing: set<ClientId>,
                         order: seq<ClientId>, failing: set<ClientId>): (State, Outcome)
  {
    if |audio| == 0 then (s, Raised(INVALID_AUDIO_MESSAGE))
    else
      var rate := if sampleRate.None? then SAMPLE_RATE else sampleRate.value;
      Play(StopSpeaking(s, stopOrder, stopFailing), audio, rate, text, order, failing)
  }

  /** The timer callback: playback is over, whichever playback the timer was scheduled for. */
  function PlaybackComplete(s: State, timer: nat): State
  {
    s.(playing := false, timers := s.timers - {timer})
  }

  /** What can happen to the server, one atomic step at a time. The iteration orders
      are not constrained here, so `Step` over-approximates them: it also accepts
      orders that no loop over the client set produces. */
  datatype Event =
    | Connected(client: ClientId)
    | Received(client: ClientId, msg: Inbound)
    | Disconnected(client: ClientId)
    | ListeningStarted
    | ListeningStopped(order: seq<ClientId>, failing: set<ClientId>)
    | SpeakingStarted(audio: seq<real>, sampleRate: Option<int>, text: string,
                      stopOrder: seq<ClientId>, stopFailing: set<ClientId>,
                      order: seq<ClientId>, failing: set<ClientId>)
    | SpeakingStopped(order: seq<ClientId>, failing: set<ClientId>)
    | TimerFired(timer: nat)

  /** A pending timer fires at most once; any other TimerFired is not an event that can happen. */
  function Step(s: State, e: Event, threshold: real, vad: seq<real> -> real): State
  {
    match e
    case Connected(c) => Connect(s, c)
    case Received(c, msg) => Receive(s, c, msg, threshold, vad).0
    case Disconnected(c) => Disconnect(s, c)
    case ListeningStarted => StartListening(s)
    case ListeningStopped(order, failing) => StopListening(s, order, failing)
    case SpeakingStarted(audio, rate, text, stopOrder, stopFailing, order, failing) =>
      StartSpeaking(s, audio, rate, text, stopOrder, stopFailing, order, failing).0
    case SpeakingStopped(order, failing) => StopSpeaking(s, order, failing)
    case TimerFired(t) => if t in s.timers then PlaybackComplete(s, t) else s
  }

  function Run(s: State, events: seq<Event>, threshold: real, vad: seq<real> -> real): State
    decreases |events|
  {
    if events == [] then s else Run(Step(s, events[0], threshold, vad), events[1..], threshold, vad)
  }
}
