/** RemoteAudioIO: the server object. Each method is modelled as one atomic step and
    is proved to change the object exactly as the matching function of Session
    changes its abstract state. */
module RemoteIO {
  import opened Protocol
  import Session

  class RemoteAudioIO {
    const vadThreshold: real
    const wsPort: int
    /** The VAD model: a score for a chunk of samples. */
    const vad: seq<real> -> real

    var clients: set<ClientId>
    var sampleQueue: seq<Entry>
    var isListening: bool
    var isPlaying: bool
    var stopEvent: bool
    /** Frames and closes handed to the transport, oldest first. */
    var outbox: seq<Outbound>
    /** The playback timers scheduled and not yet fired; the source keeps no handle on them. */
    ghost var pendingTimers: set<nat>
    ghost var timersStarted: nat

    ghost function Abstract(): Session.State
      reads this
    {
      Session.State(clients, sampleQueue, isListening, isPlaying, stopEvent, outbox, pendingTimers, timersStarted)
    }

    ghost predicate Valid()
      reads this
    {
      0.0 <= vadThreshold <= 1.0 && Session.Inv(Abstract())
    }

    /** The state set up by __init__ once the settings are known. */
    constructor (settings: Settings, vad: seq<real> -> real)
      requires 0.0 <= settings.vadThreshold <= 1.0
      ensures Valid()
      ensures Abstract() == Session.Initial
      ensures vadThreshold == settings.vadThreshold && wsPort == settings.wsPort && this.vad == vad
    {
      vadThreshold := settings.vadThreshold;
      wsPort := settings.wsPort;
      this.vad := vad;
      clients := {};
      sampleQueue := [];
      isListening := false;
      isPlaying := false;
      stopEvent := false;
      outbox := [];
      pendingTimers := {};
      timersStarted := 0;
    }

    /** __init__: fails exactly when the resolved threshold is outside [0, 1]. */
    static method Create(vadThreshold: Option<real>, wsPort: Option<int>, vad: seq<real> -> real)
      returns (r: Result<RemoteAudioIO>)
      ensures r.Err? <==> Configure(vadThreshold, wsPort).Err?
      ensures r.Err? ==> r.error == THRESHOLD_MESSAGE
      ensures r.Ok? ==> fresh(r.value) && r.value.Valid() && r.value.Abstract() == Session.Initial
      ensures r.Ok? ==> r.value.vadThreshold == Configure(vadThreshold, wsPort).value.vadThreshold
      ensures r.Ok? ==> r.value.wsPort == Configure(vadThreshold, wsPort).value.wsPort
      ensures r.Ok? ==> r.value.vad == vad
    {
      var settings := Configure(vadThreshold, wsPort);
      if settings.Err? {
        return Err(settings.error);
      }
      var server := new RemoteAudioIO(settings.value, vad);
      return Ok(server);
    }

    method StartListening()
      requires Valid()
      modifies this`isListening, this`stopEvent
      ensures Valid()
      ensures Abstract() == Session.StartListening(old(Abstract()))
    {
      if isListening {
        return;
      }
      isListening := true;
      stopEvent := false;
    }

    /** Hands `a` for every client to the transport, iterating the set; a client
        whose hand-over fails gets nothing and is reported in `disconnected`. */
    method Emit(a: Action, failing: set<ClientId>) returns (disconnected: set<ClientId>, ghost order: seq<ClientId>)
      modifies this`outbox
      ensures Session.Enumerates(order, clients)
      ensures disconnected == clients * failing
      ensures outbox == old(outbox) + Session.Notify(Session.Survivors(order, failing), a)
    {
      disconnected := {};
      order := [];
      var remaining := clients;
      ghost var done: set<ClientId> := {};
      while remaining != {}
        invariant done + remaining == clients && done !! remaining
        invariant Session.Enumerates(order, done)
        invariant disconnected == done * failing
        invariant outbox == old(outbox) + Session.Notify(Session.Survivors(order, failing), a)
        decreases remaining
      {
        var c :| c in remaining;
        Session.NotifySurvivorsSnoc(old(outbox), order, c, failing, a);
        Session.EnumeratesSnoc(order, done, c);
        if c in failing {
          disconnected := disconnected + {c};
        } else {
          outbox := outbox + [Outbound(c, a)];
        }
        order := order + [c];
        done := done + {c};
        remaining := remaining - {c};
      }
    }

    /** Sends `f` to every client, then discards the clients whose send failed. */
    method Broadcast(f: Frame, failing: set<ClientId>) returns (ghost order: seq<ClientId>)
      requires Valid()
      modifies this`outbox, this`clients
      ensures Valid()
      ensures Session.Enumerates(order, old(clients))
      ensures Abstract() == Session.Broadcast(old(Abstract()), f, order, failing)
    {
      var disconnected;
      disconnected, order := Emit(Send(f), failing);
      var pending := disconnected;
      while pending != {}
        modifies this`clients
        invariant pending <= disconnected
        invariant clients == old(clients) - (disconnected - pending)
        decreases pending
      {
        var c :| c in pending;
        clients := clients - {c};
        pending := pending - {c};
      }
      assert clients == old(clients) - failing;
      assert Abstract() == Session.Broadcast(old(Abstract()), f, order, failing);
      Session.BroadcastKeepsInv(old(Abstract()), f, order, failing);
    }

    /** stop_listening: the stop event is set, every client is closed and forgotten. */
    method StopListening(failing: set<ClientId>) returns (ghost order: seq<ClientId>)
      requires Valid()
      modifies this`isListening, this`stopEvent, this`outbox, this`clients
      ensures Valid()
      ensures old(isListening) ==> Session.Enumerates(order, old(clients))
      ensures Abstract() == Session.StopListening(old(Abstract()), order, failing)
    {
      order := [];
      if !isListening {
        return;
      }
      isListening := false;
      stopEvent := true;
      var _, closeOrder := Emit(Close, failing);
      order := closeOrder;
      clients := {};
    }

    /** The connect step of handle_client; `admitted` is false for a rejected client. */
    method Connect(c: ClientId) returns (admitted: bool)
      requires Valid()
      modifies this`clients, this`outbox
      ensures Valid()
      ensures admitted <==> old(|clients|) < MAX_CLIENTS
      ensures Abstract() == Session.Connect(old(Abstract()), c)
    {
      if |clients| >= MAX_CLIENTS {
        outbox := outbox + [Outbound(c, Send(Error(CAPACITY_MESSAGE)))];
        outbox := outbox + [Outbound(c, Close)];
        return false;
      }
      clients := clients + {c};
      outbox := outbox + [Outbound(c, Send(ConfigFrame))];
      return true;
    }

    /** One turn of the receive loop for a message from `c`; false ends the loop. */
    method Receive(c: ClientId, msg: Inbound) returns (keepReading: bool)
      requires Valid()
      modifies this`sampleQueue, this`outbox
      ensures Valid()
      ensures (Abstract(), keepReading) == Session.Receive(old(Abstract()), c, msg, vadThreshold, vad)
    {
      if stopEvent {
        return false;
      }
      match msg
      case Audio(data) =>
        if |data| > 0 {
          var score := vad(data);
          sampleQueue := sampleQueue + [Entry(data, score > vadThreshold)];
        }
        keepReading := true;
      case Ping =>
        outbox := outbox + [Outbound(c, Send(Pong))];
        keepReading := true;
      case Other =>
        keepReading := true;
      case Malformed =>
        keepReading := true;
      case Unhandled =>
        keepReading := false;
    }

    /** The `finally` of handle_client. */
    method Disconnect(c: ClientId)
      requires Valid()
      modifies this`clients
      ensures Valid()
      ensures Abstract() == Session.Disconnect(old(Abstract()), c)
    {
      clients := clients - {c};
    }

    method StopSpeaking(failing: set<ClientId>) returns (ghost order: seq<ClientId>)
      requires Valid()
      modifies this`isPlaying, this`outbox, this`clients
      ensures Valid()
      ensures old(isPlaying) ==> Session.Enumerates(order, old(clients))
      ensures Abstract() == Session.StopSpeaking(old(Abstract()), order, failing)
    {
      order := [];
      if isPlaying {
        isPlaying := false;
        order := Broadcast(StopPlayback, failing);
      }
    }

    /** The playing part of start_speaking, once the current playback is stopped. */
    method Play(audio: seq<real>, rate: int, text: string, failing: set<ClientId>)
      returns (outcome: Outcome, ghost order: seq<ClientId>)
      requires Valid()
      modifies this`isPlaying, this`outbox, this`clients, this`pendingTimers, this`timersStarted
      ensures Valid()
      ensures Session.Enumerates(order, old(clients))
      ensures (Abstract(), outcome) == Session.Play(old(Abstract()), audio, rate, text, order, failing)
    {
      order := [];
      isPlaying := true;
      if clients == {} {
        isPlaying := false;
        return Done, order;
      }
      ghost var s0 := old(Abstract());
      order := Broadcast(AudioPlayback(audio, rate, text), failing);
      ghost var sent := Abstract();
      assert sent == Session.Broadcast(s0.(playing := true), AudioPlayback(audio, rate, text), order, failing);
      if rate == 0 {
        return Raised(ZERO_DIVISION_MESSAGE), order;
      }
      pendingTimers := pendingTimers + {timersStarted};
      timersStarted := timersStarted + 1;
      outcome := Done;
      assert Abstract() == sent.(timers := sent.timers + {sent.timersStarted}, timersStarted := sent.timersStarted + 1);
    }

    /** start_speaking; `outcome` is the exception raised, if any. */
    method StartSpeaking(audio: seq<real>, stopFailing: set<ClientId>, failing: set<ClientId>,
                         sampleRate: Option<int> := None, text: string := "")
      returns (outcome: Outcome, ghost stopOrder: seq<ClientId>, ghost order: seq<ClientId>)
      requires Valid()
      modifies this`isPlaying, this`outbox, this`clients, this`pendingTimers, this`timersStarted
      ensures Valid()
      ensures |audio| > 0 && old(isPlaying) ==> Session.Enumerates(stopOrder, old(clients))
      ensures |audio| > 0 ==>
        Session.Enumerates(order, Session.StopSpeaking(old(Abstract()), stopOrder, stopFailing).clients)
      ensures (Abstract(), outcome)
        == Session.StartSpeaking(old(Abstract()), audio, sampleRate, text, stopOrder, stopFailing, order, failing)
    {
      stopOrder, order := [], [];
      if |audio| == 0 {
        return Raised(INVALID_AUDIO_MESSAGE), stopOrder, order;
      }
      var rate := if sampleRate.None? then SAMPLE_RATE else sampleRate.value;
      stopOrder := StopSpeaking(stopFailing);
      outcome, order := Play(audio, rate, text, failing);
    }

    /** _on_playback_complete, run by the timer numbered `timer`. */
    method OnPlaybackComplete(ghost timer: nat)
      requires Valid()
      modifies this`isPlaying, this`pendingTimers
      ensures Valid()
      ensures Abstract() == Session.PlaybackComplete(old(Abstract()), timer)
    {
      isPlaying := false;
      pendingTimers := pendingTimers - {timer};
    }

    /** Progress is simulated: 100% the moment playback is not on, 0% while it is,
        whatever the arguments. */
    method MeasurePercentageSpoken(totalSamples: int, sampleRate: Option<int> := None)
      returns (interrupted: bool, percentage: int)
      ensures !isPlaying ==> interrupted && percentage == 100
      ensures isPlaying ==> !interrupted && percentage == 0
    {
      interrupted := !isPlaying;
      percentage := if !isPlaying then 100 else 0;
    }

    method CheckIfSpeaking() returns (speaking: bool)
      ensures speaking <==> isPlaying
    {
      speaking := isPlaying;
    }

    /** The queue the recognizer consumes, oldest entry first. */
    method GetSampleQueue() returns (queue: seq<Entry>)
      ensures queue == sampleQueue
    {
      queue := sampleQueue;
    }

    method GetConnectedClients() returns (n: nat)
      requires Valid()
      ensures n == |clients|
      ensures n <= MAX_CLIENTS
    {
      n := |clients|;
    }
  }
}
