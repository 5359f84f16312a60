/** What the session's transitions promise, one callback at a time and over runs of callbacks. */
module SessionProperties {
  import opened Types
  import opened Playback
  import opened Transcript
  import opened Session

  /** The text a fragment contributes: its contents, or nothing when absent. */
  function Text(fragment: Option<string>): string {
    if fragment.Some? then fragment.value else ""
  }

  // ---- The invariant ----

  lemma InitialValid()
    ensures Valid(Initial())
  {
  }

  /** The message handler keeps the invariant. */
  lemma MessagePreservesValid(s: State, m: Message, now: real)
    requires Valid(s)
    ensures Valid(HandleMessage(s, m, now))
  {
  }

  lemma StepPreservesValid(s: State, e: Event)
    requires Valid(s)
    ensures Valid(Step(s, e))
  {
  }

  lemma {:induction false} RunPreservesValid(s: State, es: seq<Event>)
    requires Valid(s)
    ensures Valid(Run(s, es))
    decreases |es|
  {
    if es != [] {
      StepPreservesValid(s, es[0]);
      RunPreservesValid(Step(s, es[0]), es[1..]);
    }
  }

  // ---- One message ----

  /**
   * A chunk is scheduled only when the playback context is open; it then starts
   * at max(cursor, now), the cursor moves past it, and a fresh source joins the
   * live set. Otherwise cursor and live set are untouched.
   */
  lemma AudioScheduling(s: State, m: Message, now: real)
    requires Valid(s) && !m.interrupted
    ensures var r := HandleMessage(s, m, now);
      if m.audio.Some? && s.handles.outputCtx then
        && ChunkStart(s, m, now) == Some(StartOf(s.playback.nextStart, now))
        && r.playback.nextStart == StartOf(s.playback.nextStart, now) + m.audio.value
        && s.playback.issued !in s.playback.active
        && r.playback.active == s.playback.active + {s.playback.issued}
      else
        && ChunkStart(s, m, now) == None
        && r.playback.nextStart == s.playback.nextStart
        && r.playback.active == s.playback.active
  {
  }

  /**
   * Without a turn completion, the fragments are appended to their own pending
   * texts; an output fragment makes the status Speaking, an input fragment leaves it.
   */
  lemma FragmentsAppend(s: State, m: Message, now: real)
    requires !m.turnComplete
    ensures var r := HandleMessage(s, m, now);
      && r.text.pendingIn == s.text.pendingIn + Text(m.inputText)
      && r.text.pendingOut == s.text.pendingOut + Text(m.outputText)
      && r.text.transcript == s.text.transcript
      && r.status == if m.outputText.Some? then Speaking else s.status
  {
  }

  /**
   * A turn completion appends exactly the pair (user, pending input) and
   * (model, pending output), fragments of the same message included, empty
   * texts kept; both pending texts become empty; the status becomes Listening
   * only if no source is live once this message's audio has been scheduled.
   */
  lemma TurnCompletePair(s: State, m: Message, now: real)
    requires m.turnComplete
    ensures var r := HandleMessage(s, m, now);
      && r.text.transcript == s.text.transcript + [Turn(User, s.text.pendingIn + Text(m.inputText)),
                                                   Turn(Model, s.text.pendingOut + Text(m.outputText))]
      && r.text.pendingIn == "" && r.text.pendingOut == ""
      && r.status == if s.playback.active == {} && !Schedules(s, m.audio) then Listening
                     else if m.outputText.Some? then Speaking else s.status
  {
    var s2 := OnOutput(OnInput(s, m.inputText), m.outputText);
    assert s2.text.pendingIn == s.text.pendingIn + Text(m.inputText);
    assert s2.text.pendingOut == s.text.pendingOut + Text(m.outputText);
  }

  /**
   * An interruption stops every live source, including one this message just
   * scheduled, empties the live set and rewinds the cursor to 0; everything else
   * is what the same message without the interruption would have produced.
   */
  lemma InterruptFlushes(s: State, m: Message, now: real)
    requires m.interrupted
    ensures var q := HandleMessage(s, m.(interrupted := false), now);
            var r := HandleMessage(s, m, now);
      && r.playback.active == {} && r.playback.nextStart == 0.0
      && s.playback.active <= r.playback.stopped
      && r.playback.stopped == q.playback.stopped + q.playback.active
      && r.playback.issued == q.playback.issued
      && r.(playback := q.playback) == q
  {
  }

  /** The fragments "Hello" and " world" on the user side, none on the model side, then a turn completion. */
  lemma TurnExample(s: State, now: real)
    requires s.text.pendingIn == "" && s.text.pendingOut == ""
    ensures var none := Message(None, None, None, false, false);
            var r := Run(s, [MessageEv(none.(inputText := Some("Hello")), now),
                             MessageEv(none.(inputText := Some(" world")), now),
                             MessageEv(none.(turnComplete := true), now)]);
      && r.text.transcript == s.text.transcript + [Turn(User, "Hello world"), Turn(Model, "")]
      && r.text.pendingIn == "" && r.text.pendingOut == ""
  {
    var none := Message(None, None, None, false, false);
    var e1, e2, e3 := MessageEv(none.(inputText := Some("Hello")), now),
                      MessageEv(none.(inputText := Some(" world")), now),
                      MessageEv(none.(turnComplete := true), now);
    var s1 := Step(s, e1);
    var s2 := Step(s1, e2);
    var s3 := Step(s2, e3);
    assert s2.text.pendingIn == "Hello" + " world" == "Hello world";
    assert [e1, e2, e3][1..] == [e2, e3] && [e2, e3][1..] == [e3];
    assert Run(s, [e1, e2, e3]) == Run(s1, [e2, e3]) == Run(s2, [e3]) == s3;
  }

  // ---- Sources ending ----

  /** An ended source leaves the live set and nothing else does; the status becomes Listening exactly when the set empties. */
  lemma EndedRemovesOnlyIt(s: State, id: SourceId)
    ensures var r := Ended(s, id);
      && r.playback.active == s.playback.active - {id}
      && r.status == (if s.playback.active - {id} == {} then Listening else s.status)
      && r.(status := s.status) == s.(playback := s.playback.(active := s.playback.active - {id}))
  {
  }

  /**
   * The interrupted step itself leaves the status alone; an ended callback
   * arriving after it finds no live source and sets the status to Listening.
   */
  lemma EndedAfterInterrupt(s: State, m: Message, now: real, id: SourceId)
    requires m.interrupted
    ensures HandleMessage(s, m, now).status == HandleMessage(s, m.(interrupted := false), now).status
    ensures Ended(HandleMessage(s, m, now), id).status == Listening
  {
  }

  /** An ended callback that arrives after a stop finds no live source and sets the status to Listening. */
  lemma EndedAfterStop(s: State, id: SourceId)
    ensures Stop(s).status == Idle
    ensures Ended(Stop(s), id).status == Listening
  {
  }

  // ---- Start, open, teardown ----

  /**
   * Starting clears the error, the transcript and both pending texts, moves to
   * Connecting, takes a session and both audio contexts, rewinds the cursor and
   * starts from an empty live set. The sources of an earlier set are not stopped.
   */
  lemma StartResets(s: State)
    ensures var r := Start(s, true);
      && r.error == None && r.status == Connecting
      && r.text.transcript == [] && r.text.pendingIn == "" && r.text.pendingOut == ""
      && r.handles.session && r.handles.inputCtx && r.handles.outputCtx
      && r.playback.nextStart == 0.0 && r.playback.active == {}
      && r.playback.stopped == s.playback.stopped
  {
  }

  /** Without a credential, the start reports the error, goes Idle and tears down, the transcript still cleared. */
  lemma StartWithoutCredential(s: State)
    ensures var r := Start(s, false);
      && r.error == Some(StartFailed) && r.status == Idle
      && r.text.transcript == [] && r.text.pendingIn == "" && r.text.pendingOut == ""
      && !r.handles.inputCtx && !r.handles.outputCtx
      && !r.handles.micStream && !r.handles.micSource && !r.handles.processor
      && r.playback.active == {} && r.playback.nextStart == 0.0
      && r.playback.stopped == s.playback.stopped + s.playback.active
  {
  }

  /**
   * Opening listens when the microphone is granted and the capture context is
   * held; otherwise it records a microphone error and goes Idle without
   * releasing the session or the contexts.
   */
  lemma OpenOutcome(s: State, granted: bool)
    ensures var r := Open(s, granted);
      && r.handles.session == s.handles.session
      && r.handles.inputCtx == s.handles.inputCtx && r.handles.outputCtx == s.handles.outputCtx
      && r.text == s.text && r.playback == s.playback
      && (granted && s.handles.inputCtx ==>
            r.status == Listening && r.error == s.error
            && r.handles.micStream && r.handles.micSource && r.handles.processor)
      && (!(granted && s.handles.inputCtx) ==>
            r.status == Idle && r.error == Some(MicrophoneDenied))
  {
  }

  /** Teardown releases every handle but the session, stops every live source, and rewinds the cursor. */
  lemma CleanupReleases(s: State)
    ensures var r := Cleanup(s);
      && !r.handles.inputCtx && !r.handles.outputCtx
      && !r.handles.micStream && !r.handles.micSource && !r.handles.processor
      && r.playback.active == {} && r.playback.nextStart == 0.0
      && r.playback.stopped == s.playback.stopped + s.playback.active
      && r.handles.session == s.handles.session && r.status == s.status && r.error == s.error
      && r.text == s.text
  {
  }

  lemma CleanupIdempotent(s: State)
    ensures Cleanup(Cleanup(s)) == Cleanup(s)
  {
  }

  /** Stopping ends Idle with no handle held, whether or not a session existed; stopping again changes nothing. */
  lemma StopTearsDown(s: State)
    ensures var r := Stop(s);
      && r.status == Idle && !r.handles.session
      && r == Cleanup(s).(status := Idle, handles := Cleanup(s).handles.(session := false))
      && Stop(r) == r
  {
  }

  /** A transport error records the error and then stops. */
  lemma FailedTearsDown(s: State)
    ensures var r := Failed(s);
      && r.error == Some(ConnectionError)
      && r == Stop(s).(error := Some(ConnectionError))
  {
  }

  /**
   * A remote close releases every handle but the session, stops every live
   * source, rewinds the cursor and goes Idle; the session handle, the error and
   * the transcript state are kept.
   */
  lemma ClosedTearsDown(s: State)
    ensures var r := Closed(s);
      && r.status == Idle && r.handles.session == s.handles.session
      && !r.handles.inputCtx && !r.handles.outputCtx
      && !r.handles.micStream && !r.handles.micSource && !r.handles.processor
      && r.playback.active == {} && r.playback.nextStart == 0.0
      && r.playback.stopped == s.playback.stopped + s.playback.active
      && r.playback.issued == s.playback.issued
      && r.error == s.error && r.text == s.text
  {
  }

  // ---- Runs ----

  /** The events that neither start a conversation nor complete a turn. */
  predicate KeepsPending(e: Event) {
    !e.StartCmd? && !(e.MessageEv? && e.msg.turnComplete)
  }

  function InputFragments(es: seq<Event>): string
    decreases |es|
  {
    if es == [] then ""
    else (if es[0].MessageEv? then Text(es[0].msg.inputText) else "") + InputFragments(es[1..])
  }

  function OutputFragments(es: seq<Event>): string
    decreases |es|
  {
    if es == [] then ""
    else (if es[0].MessageEv? then Text(es[0].msg.outputText) else "") + OutputFragments(es[1..])
  }

  /** The events that leave the pending texts alone contribute their fragments, or nothing. */
  lemma StepPending(s: State, e: Event)
    requires KeepsPending(e)
    ensures Step(s, e).text.pendingIn
         == s.text.pendingIn + (if e.MessageEv? then Text(e.msg.inputText) else "")
    ensures Step(s, e).text.pendingOut
         == s.text.pendingOut + (if e.MessageEv? then Text(e.msg.outputText) else "")
  {
  }

  /**
   * Between turn completions, every fragment is kept, in arrival order, on its
   * own side, however the two channels, audio, ended sources and the other
   * callbacks interleave.
   */
  lemma {:induction false} RunFragments(s: State, es: seq<Event>)
    requires forall i :: 0 <= i < |es| ==> KeepsPending(es[i])
    ensures Run(s, es).text.pendingIn == s.text.pendingIn + InputFragments(es)
    ensures Run(s, es).text.pendingOut == s.text.pendingOut + OutputFragments(es)
    decreases |es|
  {
    if es != [] {
      assert KeepsPending(es[0]);
      StepPending(s, es[0]);
      RunFragments(Step(s, es[0]), es[1..]);
      var inHere := if es[0].MessageEv? then Text(es[0].msg.inputText) else "";
      var outHere := if es[0].MessageEv? then Text(es[0].msg.outputText) else "";
      assert s.text.pendingIn + inHere + InputFragments(es[1..])
          == s.text.pendingIn + (inHere + InputFragments(es[1..]));
      assert s.text.pendingOut + outHere + OutputFragments(es[1..])
          == s.text.pendingOut + (outHere + OutputFragments(es[1..]));
    }
  }

  function Completions(es: seq<Event>): nat
    decreases |es|
  {
    if es == [] then 0
    else (if es[0].MessageEv? && es[0].msg.turnComplete then 1 else 0) + Completions(es[1..])
  }

  /** One event other than a start grows the transcript by a pair on a turn completion, and otherwise keeps it. */
  lemma StepTranscript(s: State, e: Event)
    requires !e.StartCmd?
    ensures var t := Step(s, e).text.transcript;
      if e.MessageEv? && e.msg.turnComplete then
        |t| == |s.text.transcript| + 2 && t[..|s.text.transcript|] == s.text.transcript
      else t == s.text.transcript
  {
  }

  /** Within one conversation the transcript only grows, by one pair per turn completion, the old one staying a prefix. */
  lemma {:induction false} RunTranscriptGrows(s: State, es: seq<Event>)
    requires forall i :: 0 <= i < |es| ==> !es[i].StartCmd?
    ensures |Run(s, es).text.transcript| == |s.text.transcript| + 2 * Completions(es)
    ensures Run(s, es).text.transcript[..|s.text.transcript|] == s.text.transcript
    decreases |es|
  {
    if es != [] {
      var s' := Step(s, es[0]);
      assert !es[0].StartCmd?;
      StepTranscript(s, es[0]);
      RunTranscriptGrows(s', es[1..]);
      var t := Run(s', es[1..]).text.transcript;
      assert t[..|s.text.transcript|] == t[..|s'.text.transcript|][..|s.text.transcript|];
    }
  }

  /** A message that carries nothing but an audio chunk. */
  function AudioOnly(d: Seconds): Message {
    Message(None, None, Some(d), false, false)
  }

  /** Chunks `ds` arriving one message each, with the output clock reading `now` throughout. */
  function AudioRun(ds: seq<Seconds>, now: real): (es: seq<Event>)
    ensures |es| == |ds|
    decreases |ds|
  {
    if ds == [] then [] else [MessageEv(AudioOnly(ds[0]), now)] + AudioRun(ds[1..], now)
  }

  /**
   * With the playback context open and the clock held, the chunks start at the
   * gapless schedule of the playback scheduler, the cursor ends where that
   * schedule ends, and the chunks get the next |ds| source ids, all live.
   */
  lemma {:induction false} RunAudioSchedule(s: State, ds: seq<Seconds>, now: real)
    requires s.handles.outputCtx
    ensures var r := Run(s, AudioRun(ds, now));
      && RunStarts(s, AudioRun(ds, now)) == Starts(s.playback.nextStart, now, ds)
      && r.playback.nextStart == Cursor(s.playback.nextStart, now, ds)
      && r.playback.issued == s.playback.issued + |ds|
      && r.handles == s.handles
      && forall id :: id in r.playback.active <==>
           id in s.playback.active || s.playback.issued <= id < s.playback.issued + |ds|
    decreases |ds|
  {
    if ds != [] {
      var es := AudioRun(ds, now);
      assert es[0] == MessageEv(AudioOnly(ds[0]), now);
      assert es[1..] == AudioRun(ds[1..], now);
      var s' := Step(s, es[0]);
      assert s' == s.(playback := Enqueue(s.playback, ds[0], now));
      RunAudioSchedule(s', ds[1..], now);
    }
  }

  /** The chunks of such a run play back to back: each ends exactly where the next starts. */
  lemma RunAudioGapless(s: State, ds: seq<Seconds>, now: real, i: nat)
    requires s.handles.outputCtx && i + 1 < |ds|
    ensures |RunStarts(s, AudioRun(ds, now))| == |ds|
    ensures RunStarts(s, AudioRun(ds, now))[i] + ds[i] == RunStarts(s, AudioRun(ds, now))[i + 1]
    ensures RunStarts(s, AudioRun(ds, now))[i] == StartOf(s.playback.nextStart, now) + Sum(ds[..i])
  {
    RunAudioSchedule(s, ds, now);
    Gapless(s.playback.nextStart, now, ds, i);
    StartsFromBase(s.playback.nextStart, now, ds, i);
  }
}
