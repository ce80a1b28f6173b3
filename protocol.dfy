/** Wire vocabulary and construction-time settings of the remote audio server:
    the messages a client may send, the frames the server sends back, the
    entries of the sample queue, and the class constants of RemoteAudioIO. */
module Protocol {

  /** A connected client, identified opaquely (the source uses the websocket object). */
  type ClientId = nat

  const SAMPLE_RATE: int := 16000
  const VAD_THRESHOLD: real := 0.8
  const WS_PORT: int := 8765
  const MAX_CLIENTS: nat := 10
  const AUDIO_CHUNK_SIZE: int := 1024
  const SAMPLE_FORMAT: string := "float32"

  const CAPACITY_MESSAGE: string := "Server at maximum capacity"
  const THRESHOLD_MESSAGE: string := "VAD threshold must be between 0 and 1"
  const INVALID_AUDIO_MESSAGE: string := "Invalid audio data"
  const ZERO_DIVISION_MESSAGE: string := "division by zero"

  datatype Option<T> = None | Some(value: T)

  datatype Result<T> = Ok(value: T) | Err(error: string)

  /** An exception raised by an operation, or its normal completion. */
  datatype Outcome = Done | Raised(message: string)

  /** One inbound websocket message, after JSON decoding.
      Audio:     an object whose type is "audio" and whose data converts to floats;
      Ping:      an object whose type is "ping";
      Other:     an object with any other (or no) type;
      Malformed: a message whose handling raises JSONDecodeError, KeyError or ValueError
                 (not JSON, an audio message without data, data that is not numeric);
      Unhandled: a message whose handling raises any other exception
                 (for instance a JSON value that is not an object, which has no `get`). */
  datatype Inbound =
    | Audio(data: seq<real>)
    | Ping
    | Other
    | Malformed
    | Unhandled

  /** The frames the server sends to a client. */
  datatype Frame =
    | Config(sampleRate: int, chunkSize: int, format: string)
    | Pong
    | AudioPlayback(data: seq<real>, sampleRate: int, text: string)
    | StopPlayback
    | Error(message: string)

  /** What the server hands to the transport for one client: a frame, or closing the connection. */
  datatype Action = Send(frame: Frame) | Close

  datatype Outbound = Outbound(client: ClientId, action: Action)

  /** The frame every admitted client receives first. */
  const ConfigFrame: Frame := Config(SAMPLE_RATE, AUDIO_CHUNK_SIZE, SAMPLE_FORMAT)

  /** One entry of the sample queue: a chunk and whether the VAD called it speech. */
  datatype Entry = Entry(chunk: seq<real>, isSpeech: bool)

  /** The settings fixed at construction. */
  datatype Settings = Settings(vadThreshold: real, wsPort: int)

  /** Resolves the optional constructor arguments: a missing threshold is 0.8,
      a missing port is 8765, and a threshold outside [0, 1] is refused, never clamped. */
  function Configure(vadThreshold: Option<real>, wsPort: Option<int>): (r: Result<Settings>)
    ensures vadThreshold.None? ==> r.Ok? && r.value.vadThreshold == VAD_THRESHOLD
    ensures vadThreshold.Some? ==> (r.Ok? <==> 0.0 <= vadThreshold.value <= 1.0)
    ensures r.Ok? && vadThreshold.Some? ==> r.value.vadThreshold == vadThreshold.value
    ensures r.Ok? ==> r.value.wsPort == (if wsPort.Some? then wsPort.value else WS_PORT)
    ensures r.Err? ==> r.error == THRESHOLD_MESSAGE
  {
    var threshold := if vadThreshold.None? then VAD_THRESHOLD else vadThreshold.value;
    var port := if wsPort.None? then WS_PORT else wsPort.value;
    if !(0.0 <= threshold <= 1.0) then Err(THRESHOLD_MESSAGE)
    else Ok(Settings(threshold, port))
  }
}
