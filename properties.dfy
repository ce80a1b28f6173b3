/** What the steps of the remote audio server promise, stated over the
    functions of Session (which the methods of RemoteAudioIO are proved to follow). */
module SessionProperties {
  import opened Protocol
  import opened Session

  /** `r` only appended to the outbox of `s`. */
  ghost predicate Extends(r: State, s: State)
  {
    |s.outbox| <= |r.outbox| && r.outbox[..|s.outbox|] == s.outbox
  }

  /** What was handed to the transport between `s` and `r`. */
  ghost function NewOutput(s: State, r: State): seq<Outbound>
    requires Extends(r, s)
  {
    r.outbox[|s.outbox|..]
  }

  /** `out` carries action `a` to every client of `targets` exactly once, and nothing else. */
  ghost predicate DeliversOnceEach(out: seq<Outbound>, targets: set<ClientId>, a: Action)
  {
    && (forall i :: 0 <= i < |out| ==> out[i].action == a && out[i].client in targets)
    && (forall c :: c in targets ==> Outbound(c, a) in out)
    && (forall i, j :: 0 <= i < j < |out| ==> out[i] != out[j])
  }

  // ---------------------------------------------------------------------------
  // Broadcast

  lemma {:induction false} SurvivorsMembers(order: seq<ClientId>, failing: set<ClientId>)
    ensures forall c :: c in Survivors(order, failing) <==> c in order && c !in failing
  {
    if order != [] {
      var init := order[..|order| - 1];
      SurvivorsMembers(init, failing);
      assert order == init + [order[|order| - 1]];
    }
  }

  /** An iteration order of a set holds its elements, each once. */
  lemma {:induction false} EnumeratesMembers(order: seq<ClientId>, xs: set<ClientId>)
    requires Enumerates(order, xs)
    ensures forall c :: c in order <==> c in xs
    ensures forall i, j :: 0 <= i < j < |order| ==> order[i] != order[j]
    decreases |order|
  {
    if order != [] {
      var init := order[..|order| - 1];
      var c := order[|order| - 1];
      EnumeratesMembers(init, xs - {c});
      assert order == init + [c];
    }
  }

  /** Filtering an iteration of `xs` by the failed sends iterates the clients that did not fail. */
  lemma {:induction false} SurvivorsEnumerate(order: seq<ClientId>, xs: set<ClientId>, failing: set<ClientId>)
    requires Enumerates(order, xs)
    ensures Enumerates(Survivors(order, failing), xs - failing)
    decreases |order|
  {
    if order != [] {
      var init := order[..|order| - 1];
      var c := order[|order| - 1];
      SurvivorsEnumerate(init, xs - {c}, failing);
      var rest := Survivors(init, failing);
      if c in failing {
        assert (xs - {c}) - failing == xs - failing;
      } else {
        assert (rest + [c])[..|rest|] == rest;
        assert (xs - failing) - {c} == (xs - {c}) - failing;
      }
    }
  }

  /** The i-th action handed over goes to the i-th client of the list. */
  lemma {:induction false} NotifyAt(to: seq<ClientId>, a: Action)
    ensures forall i :: 0 <= i < |to| ==> Notify(to, a)[i] == Outbound(to[i], a)
    decreases |to|
  {
    if to != [] {
      NotifyAt(to[..|to| - 1], a);
    }
  }

  lemma NotifyDeliversOnce(to: seq<ClientId>, targets: set<ClientId>, a: Action)
    requires Enumerates(to, targets)
    ensures DeliversOnceEach(Notify(to, a), targets, a)
  {
    var out := Notify(to, a);
    EnumeratesMembers(to, targets);
    NotifyAt(to, a);
    forall c | c in targets
      ensures Outbound(c, a) in out
    {
      var i :| 0 <= i < |to| && to[i] == c;
      assert out[i] == Outbound(c, a);
    }
    forall i | 0 <= i < |out|
      ensures out[i].action == a && out[i].client in targets
    {
      assert to[i] in to;
    }
  }

  /** A broadcast sends `f` once to each client whose send does not fail, to no
      one else, discards exactly the failing clients, and changes nothing else. */
  lemma BroadcastDeliversOnce(s: State, f: Frame, order: seq<ClientId>, failing: set<ClientId>)
    requires Enumerates(order, s.clients)
    ensures var r := Broadcast(s, f, order, failing);
      && r.clients == s.clients - failing
      && Extends(r, s)
      && DeliversOnceEach(NewOutput(s, r), s.clients - failing, Send(f))
      && r == s.(clients := r.clients, outbox := r.outbox)
  {
    var r := Broadcast(s, f, order, failing);
    SurvivorsEnumerate(order, s.clients, failing);
    NotifyDeliversOnce(Survivors(order, failing), s.clients - failing, Send(f));
    assert NewOutput(s, r) == Notify(Survivors(order, failing), Send(f));
  }

  // ---------------------------------------------------------------------------
  // Connecting

  /** A client is admitted exactly below capacity: it joins the set and gets one
      config frame; otherwise it gets the capacity error and is closed, and the
      set is unchanged. Nothing else changes either way. */
  lemma ConnectAdmission(s: State, c: ClientId)
    ensures var r := Connect(s, c);
      && (|s.clients| < 10 ==> r == s.(clients := s.clients + {c},
                                outbox := s.outbox + [Outbound(c, Send(Config(16000, 1024, "float32")))]))
      && (|s.clients| >= 10 ==> r == s.(outbox := s.outbox + [Outbound(c, Send(Error("Server at maximum capacity"))),
                                                      Outbound(c, Close)]))
  {
  }

  /** Connecting the clients of `cs` one after the other. */
  ghost function ConnectAll(s: State, cs: seq<ClientId>): State
  {
    if cs == [] then s else Connect(ConnectAll(s, cs[..|cs| - 1]), cs[|cs| - 1])
  }

  /** Up to capacity, new clients connecting one after another are all admitted,
      each is sent the config frame, in order. */
  lemma {:induction false} AdmitUpToCapacity(s: State, cs: seq<ClientId>)
    requires |s.clients| + |cs| <= MAX_CLIENTS
    requires forall i, j :: 0 <= i < j < |cs| ==> cs[i] != cs[j]
    requires forall c :: c in cs ==> c !in s.clients
    ensures var r := ConnectAll(s, cs);
      && (forall x :: x in r.clients <==> x in s.clients || x in cs)
      && |r.clients| == |s.clients| + |cs|
      && r.outbox == s.outbox + Notify(cs, Send(ConfigFrame))
      && r == s.(clients := r.clients, outbox := r.outbox)
  {
    if cs != [] {
      var init := cs[..|cs| - 1];
      var c := cs[|cs| - 1];
      assert cs == init + [c];
      assert c !in init;
      AdmitUpToCapacity(s, init);
      var before := ConnectAll(s, init);
      assert c !in before.clients;
      assert Admits(before);
      var r := Connect(before, c);
      assert r == before.(clients := before.clients + {c},
                          outbox := before.outbox + [Outbound(c, Send(ConfigFrame))]);
      assert ConnectAll(s, cs) == r;
      assert |r.clients| == |before.clients| + 1;
      NotifySnoc(init, c, Send(ConfigFrame));
      assert r.outbox == s.outbox + Notify(cs, Send(ConfigFrame));
    }
  }

  /** With the server full, one more client is turned away: it gets the
      capacity error and is closed, and the count stays at the maximum. */
  lemma {:induction false} EleventhClientRejected(cs: seq<ClientId>, late: ClientId)
    requires |cs| == MAX_CLIENTS
    requires forall i, j :: 0 <= i < j < |cs| ==> cs[i] != cs[j]
    requires late !in cs
    ensures var full := ConnectAll(Initial, cs);
      var r := Connect(full, late);
      && |full.clients| == 10
      && r.clients == full.clients
      && r.outbox == Notify(cs, Send(ConfigFrame))
                     + [Outbound(late, Send(Error(CAPACITY_MESSAGE))), Outbound(late, Close)]
  {
    AdmitUpToCapacity(Initial, cs);
  }

  // ---------------------------------------------------------------------------
  // Receiving

  /** A ping is answered by exactly one pong to its sender, and nothing else changes. */
  lemma PingGetsOnePong(s: State, c: ClientId, threshold: real, vad: seq<real> -> real)
    requires !s.stopRequested
    ensures Receive(s, c, Ping, threshold, vad) == (s.(outbox := s.outbox + [Outbound(c, Send(Pong))]), true)
  {
  }

  /** Non-empty audio appends exactly one entry, flagged as speech exactly when the
      score is strictly above the threshold. Empty audio changes nothing and its
      outcome does not depend on the VAD at all. */
  lemma AudioIsGated(s: State, c: ClientId, data: seq<real>, threshold: real, vad: seq<real> -> real, otherVad: seq<real> -> real)
    requires !s.stopRequested
    ensures var (r, keepReading) := Receive(s, c, Audio(data), threshold, vad);
      && keepReading
      && (|data| > 0 ==> r == s.(queue := s.queue + [Entry(data, vad(data) > threshold)]))
      && (|data| > 0 ==> (r.queue[|s.queue|].isSpeech <==> vad(data) > threshold))
      && (|data| == 0 ==> r == s && Receive(s, c, Audio(data), threshold, otherVad) == (s, true))
  {
  }

  /** Unknown and malformed messages change nothing and the loop goes on;
      a message whose handling raises anything else ends the session. */
  lemma IgnoredMessages(s: State, c: ClientId, threshold: real, vad: seq<real> -> real)
    requires !s.stopRequested
    ensures Receive(s, c, Other, threshold, vad) == (s, true)
    ensures Receive(s, c, Malformed, threshold, vad) == (s, true)
    ensures Receive(s, c, Unhandled, threshold, vad) == (s, false)
  {
  }

  /** Once the stop event is set, the next message ends the loop unprocessed. */
  lemma StopEventEndsLoop(s: State, c: ClientId, msg: Inbound, threshold: real, vad: seq<real> -> real)
    requires s.stopRequested
    ensures Receive(s, c, msg, threshold, vad) == (s, false)
  {
  }

  // ---------------------------------------------------------------------------
  // Disconnecting and listening

  /** Disconnecting removes the client and nothing else; a second time, or for a
      client already gone, it changes nothing. */
  lemma DisconnectIdempotent(s: State, c: ClientId)
    ensures var r := Disconnect(s, c);
      && c !in r.clients
      && r == s.(clients := s.clients - {c})
      && Disconnect(r, c) == r
      && (c !in s.clients ==> r == s)
  {
  }

  /** A session ending after stop_listening cleared the set changes nothing. */
  lemma DisconnectAfterStopListening(s: State, order: seq<ClientId>, failing: set<ClientId>, c: ClientId)
    requires s.listening
    ensures Disconnect(StopListening(s, order, failing), c) == StopListening(s, order, failing)
  {
  }

  /** start_listening sets listening and clears the stop event; a second call changes nothing. */
  lemma StartListeningIdempotent(s: State)
    requires Inv(s)
    ensures var r := StartListening(s);
      && r.listening && !r.stopRequested
      && r == s.(listening := true, stopRequested := false)
      && StartListening(r) == r
  {
  }

  /** stop_listening does nothing when not listening. Otherwise it clears
      listening, sets the stop event, closes each client once (bar those whose
      close could not be scheduled) and empties the set; a second call changes
      nothing. */
  lemma StopListeningIdempotent(s: State, order: seq<ClientId>, failing: set<ClientId>,
                                order': seq<ClientId>, failing': set<ClientId>)
    requires s.listening ==> Enumerates(order, s.clients)
    ensures !s.listening ==> StopListening(s, order, failing) == s
    ensures s.listening ==> var r := StopListening(s, order, failing);
      && !r.listening && r.stopRequested && r.clients == {}
      && Extends(r, s)
      && DeliversOnceEach(NewOutput(s, r), s.clients - failing, Close)
      && r.queue == s.queue && r.playing == s.playing && r.timers == s.timers
      && StopListening(r, order', failing') == r
  {
    if s.listening {
      var r := StopListening(s, order, failing);
      SurvivorsEnumerate(order, s.clients, failing);
      NotifyDeliversOnce(Survivors(order, failing), s.clients - failing, Close);
      assert NewOutput(s, r) == Notify(Survivors(order, failing), Close);
    }
  }

  // ---------------------------------------------------------------------------
  // Speaking

  /** stop_speaking does nothing when idle; when playing, it ends playback, sends
      stop_playback once to every client whose send does not fail and discards
      exactly the failing ones. */
  lemma StopSpeakingEffects(s: State, order: seq<ClientId>, failing: set<ClientId>)
    requires s.playing ==> Enumerates(order, s.clients)
    ensures var r := StopSpeaking(s, order, failing);
      && (!s.playing ==> r == s)
      && (s.playing ==>
            && !r.playing
            && r.clients == s.clients - failing
            && Extends(r, s)
            && DeliversOnceEach(NewOutput(s, r), s.clients - failing, Send(StopPlayback))
            && r == s.(playing := false, clients := r.clients, outbox := r.outbox))
  {
    if s.playing {
      BroadcastDeliversOnce(s.(playing := false), StopPlayback, order, failing);
    }
  }

  /** Empty audio is refused before anything changes. */
  lemma StartSpeakingRejectsEmptyAudio(s: State, rate: Option<int>, text: string,
                                       stopOrder: seq<ClientId>, stopFailing: set<ClientId>,
                                       order: seq<ClientId>, failing: set<ClientId>)
    ensures StartSpeaking(s, [], rate, text, stopOrder, stopFailing, order, failing) == (s, Raised(INVALID_AUDIO_MESSAGE))
  {
  }

  /** With no client left once the current playback is stopped, nothing is sent,
      playback stays off and no timer is scheduled. */
  lemma StartSpeakingWithoutAudience(s: State, audio: seq<real>, rate: Option<int>, text: string,
                                     stopOrder: seq<ClientId>, stopFailing: set<ClientId>,
                                     order: seq<ClientId>, failing: set<ClientId>)
    requires |audio| > 0
    requires StopSpeaking(s, stopOrder, stopFailing).clients == {}
    ensures var stopped := StopSpeaking(s, stopOrder, stopFailing);
      var (r, outcome) := StartSpeaking(s, audio, rate, text, stopOrder, stopFailing, order, failing);
      && outcome == Done && r == stopped && !r.playing && r.timers == s.timers
  {
  }

  /** With clients left after stopping the current playback, the audio (at 16000
      when no rate is given) is sent once to every client whose send does not
      fail, exactly the failing clients are discarded, playback is on, and one
      fresh completion timer is scheduled; at rate 0 the call raises after the
      broadcast, with playback on and no new timer scheduled; only an older
      pending timer or stop_speaking can end it. */
  lemma StartSpeakingBroadcasts(s: State, audio: seq<real>, rate: Option<int>, text: string,
                                stopOrder: seq<ClientId>, stopFailing: set<ClientId>,
                                order: seq<ClientId>, failing: set<ClientId>)
    requires |audio| > 0
    requires s.playing ==> Enumerates(stopOrder, s.clients)
    requires Enumerates(order, StopSpeaking(s, stopOrder, stopFailing).clients)
    requires StopSpeaking(s, stopOrder, stopFailing).clients != {}
    ensures var stopped := StopSpeaking(s, stopOrder, stopFailing);
      var r := StartSpeaking(s, audio, rate, text, stopOrder, stopFailing, order, failing).0;
      var outcome := StartSpeaking(s, audio, rate, text, stopOrder, stopFailing, order, failing).1;
      var hz := if rate.Some? then rate.value else 16000;
      && r.playing
      && r.clients == stopped.clients - failing
      && Extends(r, stopped)
      && DeliversOnceEach(NewOutput(stopped, r), stopped.clients - failing, Send(AudioPlayback(audio, hz, text)))
      && r.queue == s.queue && r.listening == s.listening && r.stopRequested == s.stopRequested
      && (hz != 0 ==> outcome == Done && r.timers == s.timers + {s.timersStarted}
                      && r.timersStarted == s.timersStarted + 1)
      && (hz == 0 ==> outcome == Raised(ZERO_DIVISION_MESSAGE) && r.timers == s.timers
                      && r.timersStarted == s.timersStarted)
  {
    var stopped := StopSpeaking(s, stopOrder, stopFailing);
    var hz := if rate.Some? then rate.value else SAMPLE_RATE;
    BroadcastDeliversOnce(stopped.(playing := true), AudioPlayback(audio, hz, text), order, failing);
  }

  /** start_speaking followed by stop_speaking: playback is off and every client
      still connected has been sent stop_playback exactly once. */
  lemma SpeakThenStop(s: State, audio: seq<real>, rate: Option<int>, text: string,
                      stopOrder: seq<ClientId>, stopFailing: set<ClientId>,
                      order: seq<ClientId>, failing: set<ClientId>,
                      lastOrder: seq<ClientId>, lastFailing: set<ClientId>)
    requires |audio| > 0
    requires s.playing ==> Enumerates(stopOrder, s.clients)
    requires Enumerates(order, StopSpeaking(s, stopOrder, stopFailing).clients)
    requires Enumerates(lastOrder, StartSpeaking(s, audio, rate, text, stopOrder, stopFailing, order, failing).0.clients)
    ensures var speaking := StartSpeaking(s, audio, rate, text, stopOrder, stopFailing, order, failing).0;
      var r := StopSpeaking(speaking, lastOrder, lastFailing);
      && !r.playing
      && Extends(r, speaking)
      && DeliversOnceEach(NewOutput(speaking, r), r.clients, Send(StopPlayback))
  {
    if StopSpeaking(s, stopOrder, stopFailing).clients != {} {
      StartSpeakingBroadcasts(s, audio, rate, text, stopOrder, stopFailing, order, failing);
    } else {
      StartSpeakingWithoutAudience(s, audio, rate, text, stopOrder, stopFailing, order, failing);
    }
    var speaking := StartSpeaking(s, audio, rate, text, stopOrder, stopFailing, order, failing).0;
    StopSpeakingEffects(speaking, lastOrder, lastFailing);
  }

  /** The timer callback ignores which playback it belongs to: when a second
      playback starts before the first one's timer fires, that stale timer ends
      the second playback while the second playback's own timer is still pending. */
  lemma StaleTimerEndsNewerPlayback(s: State, c: ClientId, first: seq<real>, second: seq<real>)
    requires s.clients == {c} && !s.playing
    requires |first| > 0 && |second| > 0
    ensures var t := s.timersStarted;
      var one := StartSpeaking(s, first, None, "", [], {}, [c], {}).0;
      var two := StartSpeaking(one, second, None, "", [c], {}, [c], {}).0;
      var fired := PlaybackComplete(two, t);
      && one.playing && t in one.timers
      && two.playing && t in two.timers && t + 1 in two.timers
      && !fired.playing && t + 1 in fired.timers
  {
    var one := StartSpeaking(s, first, None, "", [], {}, [c], {}).0;
    assert Survivors([c], {}) == [c] by {
      assert [c][..0] == [];
    }
    assert one.clients == {c};
  }

  // ---------------------------------------------------------------------------
  // Whole runs

  lemma StopSpeakingKeepsInv(s: State, order: seq<ClientId>, failing: set<ClientId>)
    requires Inv(s)
    ensures Inv(StopSpeaking(s, order, failing))
  {
    if s.playing {
      BroadcastKeepsInv(s.(playing := false), StopPlayback, order, failing);
    }
  }

  lemma StartSpeakingKeepsInv(s: State, audio: seq<real>, rate: Option<int>, text: string,
                              stopOrder: seq<ClientId>, stopFailing: set<ClientId>,
                              order: seq<ClientId>, failing: set<ClientId>)
    requires Inv(s)
    ensures Inv(StartSpeaking(s, audio, rate, text, stopOrder, stopFailing, order, failing).0)
  {
    var stopped := StopSpeaking(s, stopOrder, stopFailing);
    StopSpeakingKeepsInv(s, stopOrder, stopFailing);
    if |audio| > 0 && stopped.clients != {} {
      var hz := if rate.None? then SAMPLE_RATE else rate.value;
      BroadcastKeepsInv(stopped.(playing := true), AudioPlayback(audio, hz, text), order, failing);
    }
  }

  lemma StepPreservesInv(s: State, e: Event, threshold: real, vad: seq<real> -> real)
    requires Inv(s)
    ensures Inv(Step(s, e, threshold, vad))
  {
    match e
    case SpeakingStarted(audio, rate, text, stopOrder, stopFailing, order, failing) =>
      StartSpeakingKeepsInv(s, audio, rate, text, stopOrder, stopFailing, order, failing);
    case SpeakingStopped(order, failing) =>
      StopSpeakingKeepsInv(s, order, failing);
    case Connected(c) =>
      assert |s.clients + {c}| <= |s.clients| + 1;
    case _ =>
  }

  /** Every state reached from a valid one is valid: in particular at most
      MAX_CLIENTS clients are ever connected. */
  lemma {:induction false} RunPreservesInv(s: State, events: seq<Event>, threshold: real, vad: seq<real> -> real)
    requires Inv(s)
    ensures Inv(Run(s, events, threshold, vad))
    ensures |Run(s, events, threshold, vad).clients| <= MAX_CLIENTS
    decreases |events|
  {
    if events != [] {
      StepPreservesInv(s, events[0], threshold, vad);
      RunPreservesInv(Step(s, events[0], threshold, vad), events[1..], threshold, vad);
    }
  }

  /** Only a non-empty audio message touches the queue, and it appends exactly one entry. */
  lemma StepQueue(s: State, e: Event, threshold: real, vad: seq<real> -> real)
    ensures var r := Step(s, e, threshold, vad);
      || r.queue == s.queue
      || (&& e.Received? && e.msg.Audio? && |e.msg.data| > 0 && !s.stopRequested
          && r.queue == s.queue + [Entry(e.msg.data, vad(e.msg.data) > threshold)])
  {
    match e
    case Received(c, msg) =>
    case SpeakingStarted(audio, rate, text, stopOrder, stopFailing, order, failing) =>
      var stopped := StopSpeaking(s, stopOrder, stopFailing);
      assert stopped.queue == s.queue;
    case _ =>
  }

  /** The queue only grows at its end: every run keeps the entries already queued, in place. */
  lemma {:induction false} RunQueueAppendOnly(s: State, events: seq<Event>, threshold: real, vad: seq<real> -> real)
    ensures var r := Run(s, events, threshold, vad);
      |s.queue| <= |r.queue| && r.queue[..|s.queue|] == s.queue
    decreases |events|
  {
    if events != [] {
      var next := Step(s, events[0], threshold, vad);
      StepQueue(s, events[0], threshold, vad);
      RunQueueAppendOnly(next, events[1..], threshold, vad);
      var r := Run(next, events[1..], threshold, vad);
      assert r.queue[..|s.queue|] == r.queue[..|next.queue|][..|s.queue|];
    }
  }
}
