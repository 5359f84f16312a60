/**
 * The conversation session as a value: every piece of state the client keeps
 * across callbacks, and one transition function per callback. The imperative
 * class in module App is proved to perform exactly these transitions.
 */
module Session {
  import opened Types
  import opened Playback
  import opened Transcript

  datatype Option<T> = None | Some(value: T)

  /** The user-visible error conditions (their message texts are not modelled). */
  datatype ErrorKind =
    | StartFailed        // the connection credential is missing
    | MicrophoneDenied   // microphone access failed once the session opened
    | ConnectionError    // the session reported a transport error

  /**
   * The parts of one server message that the client reads. `audio` is the
   * duration of the decoded chunk, present only when the message carries a
   * non-empty audio payload.
   */
  datatype Message = Message(
    inputText: Option<string>,
    outputText: Option<string>,
    audio: Option<Seconds>,
    turnComplete: bool,
    interrupted: bool)

  /**
   * Which resource handles are held (non-null): the session promise, the
   * capture and playback audio contexts, the microphone stream, its source
   * node and the frame tap.
   */
  datatype Handles = Handles(
    session: bool,
    inputCtx: bool,
    outputCtx: bool,
    micStream: bool,
    micSource: bool,
    processor: bool)

  /** The client's state: status and error for the user, then the three components. */
  datatype State = State(
    status: Status,
    error: Option<ErrorKind>,
    playback: Scheduler,
    text: Accumulator,
    handles: Handles)

  /** The state before any conversation: the initial values of the component's state and refs. */
  function Initial(): State {
    State(Idle, None, Scheduler(0.0, {}, {}, 0), Empty(),
          Handles(false, false, false, false, false, false))
  }

  ghost predicate Valid(s: State) {
    WellFormed(s.playback) && Paired(s.text.transcript)
  }

  // ---- The incoming-message handler, one field at a time ----

  function OnInput(s: State, fragment: Option<string>): State {
    if fragment.Some? then s.(text := AppendInput(s.text, fragment.value)) else s
  }

  function OnOutput(s: State, fragment: Option<string>): State {
    if fragment.Some? then s.(status := Speaking, text := AppendOutput(s.text, fragment.value)) else s
  }

  /** Whether a message's audio chunk gets scheduled: it has one and the playback context is open. */
  predicate Schedules(s: State, audio: Option<Seconds>) {
    audio.Some? && s.handles.outputCtx
  }

  function OnAudio(s: State, audio: Option<Seconds>, now: real): State {
    if Schedules(s, audio) then s.(playback := Enqueue(s.playback, audio.value, now)) else s
  }

  function OnTurnComplete(s: State, flag: bool): State {
    if !flag then s
    else
      var r := s.(text := Finalize(s.text));
      if r.playback.active == {} then r.(status := Listening) else r
  }

  function OnInterrupted(s: State, flag: bool): State {
    if flag then s.(playback := Flush(s.playback)) else s
  }

  /** The incoming-message handler, taking the fields in the order the client reads them. */
  function HandleMessage(s: State, m: Message, now: real): State {
    var s1 := OnInput(s, m.inputText);
    var s2 := OnOutput(s1, m.outputText);
    var s3 := OnAudio(s2, m.audio, now);
    var s4 := OnTurnComplete(s3, m.turnComplete);
    OnInterrupted(s4, m.interrupted)
  }

  /** The start time of the message's chunk, when one is scheduled. */
  function ChunkStart(s: State, m: Message, now: real): Option<real> {
    if Schedules(s, m.audio) then Some(StartOf(s.playback.nextStart, now)) else None
  }

  // ---- Other callbacks and the two commands ----

  /** A source's "ended" callback. */
  function Ended(s: State, id: SourceId): State {
    var r := s.(playback := Remove(s.playback, id));
    if r.playback.active == {} then r.(status := Listening) else r
  }

  /** The shared teardown: release capture, both audio contexts and every live source. */
  function Cleanup(s: State): State {
    s.(handles := Handles(s.handles.session, false, false, false, false, false),
       playback := Flush(s.playback))
  }

  /** The user's stop command: go idle, drop the session handle, tear down. */
  function Stop(s: State): State {
    Cleanup(s.(status := Idle, handles := s.handles.(session := false)))
  }

  /** What a start does before anything can fail: clear the error, the transcript and the pending texts. */
  function Reset(s: State): State {
    s.(error := None, status := Connecting, text := Empty())
  }

  /**
   * The user's start command. `credential` says whether the connection
   * credential is configured; without it the start fails and tears down.
   */
  function Start(s: State, credential: bool): State {
    var r := Reset(s);
    if !credential then
      Cleanup(r.(error := Some(StartFailed), status := Idle))
    else
      r.(handles := s.handles.(inputCtx := true, outputCtx := true, session := true),
         playback := s.playback.(nextStart := 0.0, active := {}))
  }

  /**
   * The session's open callback. `granted` says whether the microphone was
   * obtained; wiring the capture tap also fails when the capture context is gone.
   */
  function Open(s: State, granted: bool): State {
    if !granted then
      s.(error := Some(MicrophoneDenied), status := Idle)
    else if !s.handles.inputCtx then
      s.(handles := s.handles.(micStream := true), error := Some(MicrophoneDenied), status := Idle)
    else
      s.(handles := s.handles.(micStream := true, micSource := true, processor := true), status := Listening)
  }

  /** The session's error callback. */
  function Failed(s: State): State {
    Stop(s.(error := Some(ConnectionError)))
  }

  /** The session's close callback. */
  function Closed(s: State): State {
    Cleanup(s).(status := Idle)
  }

  // ---- Runs of events ----

  /** One callback or command delivered on the event loop. */
  datatype Event =
    | StartCmd(credential: bool)
    | StopCmd
    | OpenEv(granted: bool)
    | MessageEv(msg: Message, now: real)
    | EndedEv(id: SourceId)
    | ErrorEv
    | CloseEv

  function Step(s: State, e: Event): State {
    match e
    case StartCmd(credential) => Start(s, credential)
    case StopCmd => Stop(s)
    case OpenEv(granted) => Open(s, granted)
    case MessageEv(m, now) => HandleMessage(s, m, now)
    case EndedEv(id) => Ended(s, id)
    case ErrorEv => Failed(s)
    case CloseEv => Closed(s)
  }

  function Run(s: State, es: seq<Event>): State
    decreases |es|
  {
    if es == [] then s else Run(Step(s, es[0]), es[1..])
  }

  /** The start times of the chunks scheduled during a run, in order. */
  function RunStarts(s: State, es: seq<Event>): seq<real>
    decreases |es|
  {
    if es == [] then []
    else
      var here := if es[0].MessageEv? && ChunkStart(s, es[0].msg, es[0].now).Some?
                  then [ChunkStart(s, es[0].msg, es[0].now).value] else [];
      here + RunStarts(Step(s, es[0]), es[1..])
  }
}
