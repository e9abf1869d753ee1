/**
 * The practice-session controller (the `App` component): the session state,
 * the live transcript, the playback cursor with its set of in-flight audio
 * sources, and the handles of the live session and the microphone stream.
 * The vendor SDK, the microphone and the audio clock are outside the model:
 * their outcomes arrive as method parameters.
 */
module Session {
  import opened Wrappers
  import opened Transcript
  import opened Playback

  datatype SessionState = Idle | Loading | Active | Evaluating | GeneratingAudio

  datatype Topic = Topic(id: string, title: string, category: string, description: string, questions: seq<string>)

  /** The parsed scoring response (`IELTSScore`). */
  datatype Score = Score(fluency: real, lexical: real, grammar: real, pronunciation: real, overall: real, feedback: string)

  /**
   * One message of the live session, reduced to what the handler reads:
   * the duration of its decoded audio chunk if it carries one, its output
   * (examiner) and input (student) transcriptions, and the interruption flag.
   */
  datatype Message = Message(
    audioDuration: Option<real>,
    outputTranscription: Option<string>,
    inputTranscription: Option<string>,
    interrupted: bool)

  /** A scheduled buffer source: where on the audio clock it starts, how long it plays, and whether it was stopped. */
  class AudioSource {
    const start: real
    const duration: real
    var stopped: bool

    constructor (start: real, duration: real)
      ensures this.start == start && this.duration == duration && !stopped
    {
      this.start := start;
      this.duration := duration;
      stopped := false;
    }
  }

  /**
   * A held resource that must be given back: the microphone stream (its
   * tracks stopped on release) or the live session (closed on release).
   */
  class Handle {
    var released: bool

    constructor ()
      ensures !released
    {
      released := false;
    }
  }

  class App {
    var state: SessionState
    var selectedTopic: Option<Topic>
    var transcriptions: seq<Item>
    var finalScore: Option<Score>
    /** The live session held in `sessionRef.current`, if any. */
    var session: Option<Handle>
    /** The microphone stream held in `streamRef.current`, if any. */
    var stream: Option<Handle>
    /** Every stream and session ever acquired, held or not. */
    ghost var acquired: set<Handle>
    var nextStartTime: real
    var sources: set<AudioSource>

    /** The handles currently held: the stream and the session, when set. */
    ghost function Held(): set<Handle>
      reads this
    {
      (if stream.Some? then {stream.value} else {}) + (if session.Some? then {session.value} else {})
    }

    /** A held stream or session was acquired and is not yet released. */
    ghost predicate HandlesValid()
      reads this`stream, this`session, this`acquired, acquired
    {
      && (stream.Some? ==> stream.value in acquired && !stream.value.released)
      && (session.Some? ==> session.value in acquired && !session.value.released)
    }

    /**
     * The transcript alternates speakers; every in-flight source is still
     * playing and ends by the cursor; no two in-flight sources overlap; a
     * held stream or session was acquired and is not yet released.
     */
    ghost predicate Valid()
      reads this, sources, acquired
    {
      && nextStartTime >= 0.0
      && HandlesValid()
      && Alternating(transcriptions)
      && (forall s :: s in sources ==>
            !s.stopped && s.start >= 0.0 && s.duration >= 0.0 && s.start + s.duration <= nextStartTime)
      && (forall a, b :: a in sources && b in sources && a != b ==>
            a.start + a.duration <= b.start || b.start + b.duration <= a.start)
    }

    constructor ()
      ensures Valid()
      ensures state == Idle && selectedTopic == None && transcriptions == [] && finalScore == None
      ensures session == None && stream == None && acquired == {} && nextStartTime == 0.0 && sources == {}
    {
      state := Idle;
      selectedTopic := None;
      transcriptions := [];
      finalScore := None;
      session := None;
      stream := None;
      acquired := {};
      nextStartTime := 0.0;
      sources := {};
    }

    /**
     * A topic is chosen (only possible while idle): the state becomes
     * loading, the topic is selected and the transcript cleared. The
     * microphone request is then pending.
     */
    method StartPractice(topic: Topic)
      requires Valid() && state == Idle
      modifies this`state, this`selectedTopic, this`transcriptions
      ensures Valid()
      ensures state == Loading && selectedTopic == Some(topic) && transcriptions == []
    {
      state := Loading;
      selectedTopic := Some(topic);
      transcriptions := [];
    }

    /**
     * The microphone request settled, in whatever state the app is in by
     * then. A granted stream is stored, replacing any stream still held
     * without releasing it; a refusal falls back to idle.
     */
    method MicSettled(granted: bool) returns (acquiredStream: Option<Handle>)
      requires Valid()
      modifies this`stream, this`state, this`acquired
      ensures Valid()
      ensures acquiredStream.Some? == granted
      ensures granted ==> fresh(acquiredStream.value) && !acquiredStream.value.released
                          && stream == acquiredStream && acquired == old(acquired) + {acquiredStream.value}
                          && state == old(state)
      ensures !granted ==> stream == old(stream) && acquired == old(acquired) && state == Idle
      ensures granted && old(stream).Some? ==>
                old(stream).value in acquired && !old(stream).value.released && old(stream) != stream
    {
      if granted {
        var h := new Handle();
        stream := Some(h);
        acquired := acquired + {h};
        acquiredStream := Some(h);
      } else {
        state := Idle;
        acquiredStream := None;
      }
    }

    /** The live session opened: the state becomes active. */
    method OnOpen()
      requires Valid()
      modifies this`state
      ensures Valid() && state == Active
    {
      state := Active;
    }

    /**
     * The connection attempt settled: on success the session is stored,
     * replacing any session still held without closing it; on failure the
     * state falls back to idle and the stream is left as it is.
     */
    method ConnectSettled(ok: bool) returns (live: Option<Handle>)
      requires Valid()
      modifies this`state, this`session, this`acquired
      ensures Valid()
      ensures live.Some? == ok
      ensures ok ==> fresh(live.value) && !live.value.released
                     && session == live && acquired == old(acquired) + {live.value}
                     && state == old(state)
      ensures !ok ==> session == old(session) && acquired == old(acquired) && state == Idle
      ensures ok && old(session).Some? ==>
                old(session).value in acquired && !old(session).value.released && old(session) != session
      ensures stream == old(stream)
    {
      if ok {
        var h := new Handle();
        session := Some(h);
        acquired := acquired + {h};
        live := Some(h);
      } else {
        state := Idle;
        live := None;
      }
    }

    /**
     * A decoded chunk of `duration` seconds, handled at audio-clock time
     * `now`: it starts at the later of the cursor and `now`, the cursor moves
     * to its end, and the source joins the in-flight set.
     */
    method ScheduleChunk(now: real, duration: real) returns (src: AudioSource)
      requires Valid() && now >= 0.0 && duration >= 0.0
      modifies this`nextStartTime, this`sources
      ensures Valid() && fresh(src)
      ensures src.start == StartOf(old(nextStartTime), now) && src.duration == duration && !src.stopped
      ensures src.start >= now && src.start >= old(nextStartTime)
      ensures nextStartTime == Advance(old(nextStartTime), Chunk(now, duration))
      ensures sources == old(sources) + {src}
    {
      nextStartTime := StartOf(nextStartTime, now);
      src := new AudioSource(nextStartTime, duration);
      nextStartTime := nextStartTime + duration;
      sources := sources + {src};
    }

    /** A source finished playing on its own and leaves the in-flight set. */
    method OnEnded(src: AudioSource)
      requires Valid()
      modifies this`sources
      ensures Valid() && sources == old(sources) - {src}
    {
      sources := sources - {src};
    }

    /** The examiner was interrupted: every in-flight source is stopped, the set emptied and the cursor set to 0. */
    method Interrupt()
      requires Valid()
      modifies this`sources, this`nextStartTime, sources
      ensures Valid()
      ensures sources == {} && nextStartTime == 0.0
      ensures forall s :: s in old(sources) ==> s.stopped
    {
      forall s | s in sources {
        s.stopped := true;
      }
      sources := {};
      nextStartTime := 0.0;
    }

    /**
     * A message whose audio payload fails to decode: the cursor has already
     * been raised to the later of itself and `now`, and the handler stops
     * there, so no source starts and the message's transcription and
     * interruption are never applied.
     */
    method OnUndecodableMessage(now: real)
      requires Valid() && now >= 0.0
      modifies this`nextStartTime
      ensures Valid()
      ensures nextStartTime == StartOf(old(nextStartTime), now) && nextStartTime >= now
      ensures transcriptions == old(transcriptions) && sources == old(sources)
    {
      nextStartTime := StartOf(nextStartTime, now);
    }

    /**
     * One live-session message, handled as one step: its audio chunk is
     * scheduled, its transcription merged into the transcript, and then, if
     * it signals an interruption, all playback is stopped.
     */
    method OnMessage(msg: Message, now: real) returns (started: Option<AudioSource>)
      requires Valid() && now >= 0.0
      requires msg.audioDuration.Some? ==> msg.audioDuration.value >= 0.0
      modifies this`sources, this`nextStartTime, this`transcriptions, sources
      ensures Valid()
      ensures transcriptions == OnTranscription(old(transcriptions), msg.outputTranscription, msg.inputTranscription)
      ensures started.Some? == msg.audioDuration.Some?
      ensures started.Some? ==> fresh(started.value) && started.value.duration == msg.audioDuration.value
                                && started.value.start == StartOf(old(nextStartTime), now)
      ensures msg.interrupted ==>
                sources == {} && nextStartTime == 0.0
                && (forall s :: s in old(sources) ==> s.stopped)
                && (started.Some? ==> started.value.stopped)
      ensures !msg.interrupted && started.Some? ==>
                sources == old(sources) + {started.value}
                && nextStartTime == Advance(old(nextStartTime), Chunk(now, msg.audioDuration.value))
      ensures !msg.interrupted && started.None? ==>
                sources == old(sources) && nextStartTime == old(nextStartTime)
    {
      started := None;
      if msg.audioDuration.Some? {
        var src := ScheduleChunk(now, msg.audioDuration.value);
        started := Some(src);
      }
      transcriptions := OnTranscription(transcriptions, msg.outputTranscription, msg.inputTranscription);
      if msg.interrupted {
        Interrupt();
      }
    }

    /**
     * The session ends: the held session is closed and the held stream
     * released, every in-flight source stopped and the set emptied, and the
     * state is idle. The cursor, the transcript and any score are left as
     * they are, and a handle no longer held is not touched.
     */
    method StopSession()
      requires Valid()
      modifies this`session, this`stream, this`sources, this`state, sources, Held()
      ensures Valid()
      ensures session == None && stream == None && sources == {} && state == Idle
      ensures forall h :: h in old(Held()) ==> h.released
      ensures forall s :: s in old(sources) ==> s.stopped
      ensures nextStartTime == old(nextStartTime) && acquired == old(acquired)
    {
      if session.Some? {
        session.value.released := true;
      }
      if stream.Some? {
        stream.value.released := true;
      }
      session := None;
      stream := None;
      forall s | s in sources {
        s.stopped := true;
      }
      sources := {};
      state := Idle;
    }

    /**
     * Submitting for evaluation does nothing with fewer than two turns;
     * otherwise the state becomes evaluating and the prompt renders the
     * transcript.
     */
    method GenerateEvaluation() returns (prompt: Option<string>)
      requires Valid()
      modifies this`state
      ensures Valid()
      ensures |transcriptions| < 2 ==> prompt == None && state == old(state)
      ensures |transcriptions| >= 2 ==> prompt == Some(EvaluationPrompt(transcriptions)) && state == Evaluating
    {
      if |transcriptions| < 2 {
        return None;
      }
      state := Evaluating;
      prompt := Some(EvaluationPrompt(transcriptions));
    }

    /**
     * The scoring request settled: a parsed score is kept and the session
     * stopped; a failed request or unparsable response returns to idle.
     */
    method EvaluationSettled(result: Option<Score>)
      requires Valid()
      modifies this`finalScore, this`session, this`stream, this`sources, this`state, sources, Held()
      ensures Valid() && state == Idle
      ensures finalScore == (if result.Some? then result else old(finalScore))
      ensures result.Some? ==> session == None && stream == None && sources == {}
                               && (forall h :: h in old(Held()) ==> h.released)
                               && (forall s :: s in old(sources) ==> s.stopped)
      ensures result.None? ==> session == old(session) && stream == old(stream) && sources == old(sources)
                               && (forall h :: h in old(Held()) ==> !h.released)
    {
      if result.Some? {
        finalScore := result;
        StopSession();
      } else {
        state := Idle;
      }
    }

    /** The score dialog is closed: score, topic and transcript are cleared and the state is idle. */
    method CloseEvaluation()
      requires Valid()
      modifies this`finalScore, this`selectedTopic, this`transcriptions, this`state
      ensures Valid()
      ensures finalScore == None && selectedTopic == None && transcriptions == [] && state == Idle
    {
      finalScore := None;
      selectedTopic := None;
      transcriptions := [];
      state := Idle;
    }
  }

  /**
   * Starting from idle up to a live session: a topic is chosen, the
   * microphone granted, the session opened and the connection made. The
   * playback cursor and the in-flight sources are not touched.
   */
  method StartSession(app: App, topic: Topic)
    requires app.Valid() && app.state == Idle
    modifies app
    ensures app.Valid() && app.state == Active && app.selectedTopic == Some(topic) && app.transcriptions == []
    ensures app.stream.Some? && app.session.Some? && fresh(app.stream.value) && fresh(app.session.value)
    ensures app.acquired == old(app.acquired) + {app.stream.value, app.session.value}
    ensures app.nextStartTime == old(app.nextStartTime) && app.sources == old(app.sources)
  {
    app.StartPractice(topic);
    var mic := app.MicSettled(true);
    app.OnOpen();
    var live := app.ConnectSettled(true);
  }

  /**
   * A whole session driven through the controller: start, microphone
   * granted, open, connect, one audio message, then an explicit stop. Every
   * handle acquired is released and no source is left in flight.
   */
  method PracticeRound(topic: Topic, now: real, duration: real) returns (app: App)
    requires now >= 0.0 && duration >= 0.0
    ensures fresh(app) && app.Valid()
    ensures app.state == Idle && app.stream == None && app.session == None && app.sources == {}
    ensures forall h :: h in app.acquired ==> h.released
  {
    app := new App();
    StartSession(app, topic);
    var started := app.OnMessage(Message(Some(duration), None, None, false), now);
    app.StopSession();
  }

  /**
   * A failed connection keeps the stream; the next start stores a new
   * stream over it, and the stop that ends the second session releases only
   * the handles then held. The first stream is never released although the
   * app is idle and holds nothing.
   */
  method LeakAfterFailedConnect(topic: Topic) returns (app: App, orphan: Handle)
    ensures app.Valid() && app.state == Idle && app.stream == None && app.session == None
    ensures orphan in app.acquired && !orphan.released
  {
    app := new App();
    app.StartPractice(topic);
    var first := app.MicSettled(true);
    orphan := first.value;
    var failed := app.ConnectSettled(false);
    StartSession(app, topic);
    app.StopSession();
  }

  /**
   * After a failed connection the stream is still held; a stop pressed
   * during the next start's microphone request releases it, so it is
   * orphaned only if the second grant stores a new stream over it.
   */
  method StopReleasesKeptStream(topic: Topic) returns (app: App, first: Handle)
    ensures app.Valid() && app.state == Idle && app.stream == None && app.session == None
    ensures first in app.acquired && first.released
  {
    app := new App();
    app.StartPractice(topic);
    var mic := app.MicSettled(true);
    first := mic.value;
    var failed := app.ConnectSettled(false);
    app.StartPractice(topic);
    app.StopSession();
  }

  /**
   * "End Session" pressed while the microphone request is still pending:
   * the stop cannot release the stream being requested, which is not stored
   * yet, and when the request is granted the stream is stored and the
   * session goes on to become active.
   */
  method StopWhileLoading(topic: Topic) returns (app: App)
    ensures app.Valid() && app.state == Active && app.stream.Some? && app.session.Some?
  {
    app := new App();
    app.StartPractice(topic);
    app.StopSession();
    var mic := app.MicSettled(true);
    app.OnOpen();
    var live := app.ConnectSettled(true);
  }

  /**
   * A new session after a stopped one: the previous session's chunk moved
   * the cursor to `duration` and stopping kept it there, while the new
   * session's audio clock starts again from 0. The first chunk of the new
   * session, handled at `now`, therefore waits until the old cursor.
   */
  method RestartKeepsCursor(topic: Topic, duration: real, now: real) returns (start: real)
    requires duration >= 0.0 && now >= 0.0
    ensures start == (if now < duration then duration else now)
  {
    var app := new App();
    StartSession(app, topic);
    var a := app.OnMessage(Message(Some(duration), None, None, false), 0.0);
    app.StopSession();
    StartSession(app, topic);
    var b := app.OnMessage(Message(Some(duration), None, None, false), now);
    start := b.value.start;
  }

  /**
   * Barge-in: a chunk is playing when an interruption arrives; it is
   * stopped, and the next chunk, handled at `later`, starts exactly then.
   */
  method InterruptThenResume(now: real, later: real, duration: real) returns (first: real, next: real)
    requires 0.0 <= now && 0.0 <= later && duration >= 0.0
    ensures first == now && next == later
  {
    var app := new App();
    var a := app.OnMessage(Message(Some(duration), None, None, false), now);
    first := a.value.start;
    var b := app.OnMessage(Message(None, None, None, true), now);
    assert a.value.stopped && app.nextStartTime == 0.0;
    var c := app.OnMessage(Message(Some(duration), None, None, false), later);
    next := c.value.start;
  }
}
