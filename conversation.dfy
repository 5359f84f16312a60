/**
 * The conversation client as the component keeps it: mutable fields that the
 * callbacks update in place. Each method is proved to perform the matching
 * transition of module Session on the abstract value Snapshot().
 */
module App {
  import opened Types
  import opened Playback
  import opened Transcript
  import opened Session
  import SessionProperties

  class Conversation {
    // What the user sees.
    var status: Status
    var error: Option<ErrorKind>
    var transcript: seq<Turn>

    // The pending transcript texts.
    var pendingIn: string
    var pendingOut: string

    // The playback scheduler: the cursor and the live buffer sources.
    var nextStart: real
    var active: set<SourceId>
    var stopped: set<SourceId>
    var issued: nat

    // Whether each resource handle is held (non-null).
    var session: bool
    var inputCtx: bool
    var outputCtx: bool
    var micStream: bool
    var micSource: bool
    var processor: bool

    ghost function Snapshot(): State
      reads this
    {
      State(status, error,
            Scheduler(nextStart, active, stopped, issued),
            Accumulator(transcript, pendingIn, pendingOut),
            Handles(session, inputCtx, outputCtx, micStream, micSource, processor))
    }

    ghost predicate Valid()
      reads this
    {
      Session.Valid(Snapshot())
    }

    /** The component as first rendered: idle, no transcript, no handles, cursor 0. */
    constructor ()
      ensures Valid() && Snapshot() == Initial()
    {
      status, error, transcript := Idle, None, [];
      pendingIn, pendingOut := "", "";
      nextStart, active, stopped, issued := 0.0, {}, {}, 0;
      session, inputCtx, outputCtx := false, false, false;
      micStream, micSource, processor := false, false, false;
      SessionProperties.InitialValid();
    }

    /** Stop every live source one by one, then clear the set and rewind the cursor. */
    method FlushPlayback()
      modifies this
      ensures Snapshot() == old(Snapshot()).(playback := Flush(old(Snapshot()).playback))
    {
      var rest := active;
      while rest != {}
        invariant rest <= active
        invariant stopped == old(stopped) + (active - rest)
        modifies this`stopped
        decreases rest
      {
        var source :| source in rest;
        stopped := stopped + {source};
        rest := rest - {source};
      }
      active := {};
      nextStart := 0.0;
    }

    /** The shared teardown routine. */
    method Cleanup()
      modifies this
      ensures Snapshot() == Session.Cleanup(old(Snapshot()))
    {
      processor := false;
      micSource := false;
      micStream := false;
      inputCtx := false;
      outputCtx := false;
      FlushPlayback();
    }

    /** The stop command; closing the session itself is left to the transport. */
    method Stop()
      requires Valid()
      modifies this
      ensures Valid()
      ensures Snapshot() == Session.Stop(old(Snapshot()))
    {
      status := Idle;
      if session {
        session := false;
      }
      Cleanup();
      SessionProperties.StepPreservesValid(old(Snapshot()), StopCmd);
    }

    /** The resets a start performs first. */
    method Reset()
      modifies this
      ensures Snapshot() == Session.Reset(old(Snapshot()))
    {
      error := None;
      status := Connecting;
      transcript := [];
      pendingIn := "";
      pendingOut := "";
    }

    /** The start command; `credential` says whether the connection credential is configured. */
    method Start(credential: bool)
      requires Valid()
      modifies this
      ensures Valid()
      ensures Snapshot() == Session.Start(old(Snapshot()), credential)
    {
      Reset();
      if !credential {
        error := Some(StartFailed);
        status := Idle;
        Cleanup();
      } else {
        inputCtx := true;
        outputCtx := true;
        nextStart := 0.0;
        active := {};
        session := true;
      }
      SessionProperties.StepPreservesValid(old(Snapshot()), StartCmd(credential));
    }

    /** The session's open callback; `granted` says whether the microphone was obtained. */
    method OnOpen(granted: bool)
      requires Valid()
      modifies this
      ensures Valid()
      ensures Snapshot() == Open(old(Snapshot()), granted)
    {
      if !granted {
        error := Some(MicrophoneDenied);
        status := Idle;
        return;
      }
      micStream := true;
      status := Listening;
      if !inputCtx {
        error := Some(MicrophoneDenied);
        status := Idle;
        return;
      }
      micSource := true;
      processor := true;
    }

    /** An input transcription fragment is appended to the pending user text. */
    method TakeInput(fragment: Option<string>)
      modifies this
      ensures Snapshot() == OnInput(old(Snapshot()), fragment)
    {
      if fragment.Some? {
        pendingIn := pendingIn + fragment.value;
      }
    }

    /** An output transcription fragment means the model is speaking; it is appended to the pending model text. */
    method TakeOutput(fragment: Option<string>)
      modifies this
      ensures Snapshot() == OnOutput(old(Snapshot()), fragment)
    {
      if fragment.Some? {
        status := Speaking;
        pendingOut := pendingOut + fragment.value;
      }
    }

    /** An audio chunk is scheduled as a new source at max(cursor, now) when the playback context is open. */
    method TakeAudio(audio: Option<Seconds>, clockNow: real) returns (scheduled: Option<real>)
      modifies this
      ensures Snapshot() == OnAudio(old(Snapshot()), audio, clockNow)
      ensures scheduled == if Schedules(old(Snapshot()), audio) then Some(StartOf(old(nextStart), clockNow)) else None
    {
      scheduled := None;
      if audio.Some? && outputCtx {
        nextStart := Max(nextStart, clockNow);
        var source := issued;
        issued := issued + 1;
        scheduled := Some(nextStart);
        nextStart := nextStart + audio.value;
        active := active + {source};
      }
    }

    /** A turn completion finalises the pending texts into a (user, model) pair. */
    method TakeTurnComplete(flag: bool)
      modifies this
      ensures Snapshot() == OnTurnComplete(old(Snapshot()), flag)
    {
      if flag {
        transcript := transcript + [Turn(User, pendingIn), Turn(Model, pendingOut)];
        pendingIn := "";
        pendingOut := "";
        if |active| == 0 {
          status := Listening;
        }
      }
    }

    /** An interruption flushes playback. */
    method TakeInterrupted(flag: bool)
      modifies this
      ensures Snapshot() == OnInterrupted(old(Snapshot()), flag)
    {
      if flag {
        FlushPlayback();
      }
    }

    /**
     * The session's message callback, with the output clock reading `clockNow`,
     * taking the message's fields in order. `scheduled` is the start time given
     * to the new source, if one was scheduled.
     */
    method OnMessage(m: Message, clockNow: real) returns (scheduled: Option<real>)
      requires Valid()
      modifies this
      ensures Valid()
      ensures Snapshot() == HandleMessage(old(Snapshot()), m, clockNow)
      ensures scheduled == ChunkStart(old(Snapshot()), m, clockNow)
    {
      TakeInput(m.inputText);
      TakeOutput(m.outputText);
      scheduled := TakeAudio(m.audio, clockNow);
      TakeTurnComplete(m.turnComplete);
      TakeInterrupted(m.interrupted);
      SessionProperties.MessagePreservesValid(old(Snapshot()), m, clockNow);
    }

    /** A buffer source's "ended" callback. */
    method OnEnded(source: SourceId)
      requires Valid()
      modifies this
      ensures Valid()
      ensures Snapshot() == Ended(old(Snapshot()), source)
    {
      active := active - {source};
      if |active| == 0 {
        status := Listening;
      }
    }

    /** The session's error callback. */
    method OnError()
      requires Valid()
      modifies this
      ensures Valid()
      ensures Snapshot() == Failed(old(Snapshot()))
    {
      error := Some(ConnectionError);
      Stop();
    }

    /** The session's close callback. */
    method OnClose()
      requires Valid()
      modifies this
      ensures Valid()
      ensures Snapshot() == Closed(old(Snapshot()))
    {
      Cleanup();
      status := Idle;
      SessionProperties.StepPreservesValid(old(Snapshot()), CloseEv);
    }
  }
}
