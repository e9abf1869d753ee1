# IELTS speaking practice app — verified model of its sequential core

The app lets a student hold a spoken IELTS practice conversation with an AI
examiner over a live audio session, then asks a model to score the
transcript. Most of it is UI and vendor-SDK plumbing. This project models the
sequential logic inside it:

- **Transcript aggregation** (`Transcript.dfy`): each transcription fragment from
  the student (`user`) or the examiner (`model`) either extends the last turn,
  when the speaker is the same, or opens a new turn. The transcript is also
  rendered as the "Student: …" / "Examiner: …" text sent for scoring.
- **Playback scheduling** (`Playback.dfy` as a specification, `Session.dfy` as
  state). Each decoded audio chunk starts at `max(cursor, now)`, and the cursor
  then advances by the chunk's duration. An interruption stops every in-flight
  source and resets the cursor.
- **Session lifecycle** (`Session.dfy`, class `App`): idle → loading → active →
  idle, the evaluating state, stopping a session, and the two-turn guard on
  evaluation.
- **Part 2 cue-card timer** (`CueCard.dfy`, class `Part2Timer`): idle →
  preparing (60 s) → speaking (120 s) → finished, counted down one second per
  tick. It also covers which button each phase offers.
- **Exam timer panel** (`ExamTimer.dfy`, class `ExamTimer`): the Part 1/3
  stopwatches, the Part 2 countdown variant, the turn timer and the over-time
  thresholds.
- **Time display** (`TimeFormat.dfy`): `formatTime`, seconds shown as "m:ss".
  Its inverse `ParseTime` states what the format means.

Times are `real` seconds on the audio clock. Timer values are whole seconds.
Each `setInterval` firing is an explicit `Tick` step. The effect that reacts
to a countdown reaching zero is a separate `Settle` step. The outcome of each
remote or device call arrives as a method parameter, in a step of its own:
microphone granted, connection succeeded, decoded chunk duration, parsed
score. The microphone stream and the live session are handles that are
either held or released.

Behaviour of the code that the model keeps as written:
- An interruption sets the cursor to 0 (App.tsx:117). The next chunk still
  starts at `max(0, now) = now`; `InterruptThenResume` shows this.
- If a message carries both an output and an input transcription, only the
  output (examiner) fragment is applied (App.tsx:94-103).
- A failed connection sets the state to idle and leaves the microphone
  stream held (App.tsx:135-137); a failed evaluation leaves both the stream
  and the live session held (App.tsx:162-164).
- Storing a new stream (App.tsx:54) or a new session (App.tsx:134) does not
  release the one already held, and `stopSession` releases only the handles
  held at that moment (App.tsx:28-35). So after a failed connection, a new
  start whose microphone grant stores a second stream over the first
  (App.tsx:54) orphans the first for good: `LeakAfterFailedConnect` ends
  idle, holding nothing, with that stream never released. A stop before
  that second grant still releases the first stream
  (`StopReleasesKeptStream`).
- The microphone request is awaited (App.tsx:53) while "End Session" is on
  screen (App.tsx:278). A stop during that wait cannot release the stream
  being requested, because that stream is not stored yet; once granted it
  is stored and the session still becomes active. `StopWhileLoading` shows
  this.
- `stopSession` does not reset the playback cursor (App.tsx:27-39). Each
  practice session creates a new output audio context whose clock starts
  again at 0 (App.tsx:51), so the examiner's first chunk in the next session
  waits until the old cursor time: after a 30-second chunk, a stop and a
  restart, a chunk handled at time 0 starts at 30. `RestartKeepsCursor`
  shows this.
- An audio payload that fails to decode (App.tsx:83) ends the handler
  after the cursor was raised to `max(cursor, now)` (App.tsx:82): no source
  starts, and that message's transcription and interruption are lost.
  `OnUndecodableMessage` models this; the transcript properties hold for
  the messages that are handled to the end.
- A scoring response is stored as parsed, with no check of its fields or
  ranges (App.tsx:159-160). A failed request or parse sets the state to idle
  (App.tsx:162-164).

## Model

| member | source | states |
|---|---|---|
| TimeFormat.Decimal | components/Part2Timer.tsx:57 | `toString` of a non-negative integer is a canonical decimal numeral (no leading zeros) whose value is the integer |
| TimeFormat.Pad2 | components/Part2Timer.tsx:57 | `padStart(2, '0')` of a value below 100 is exactly two digits denoting that value |
| TimeFormat.FormatTime | components/Part2Timer.tsx:54-58 | the display is minutes, ':' and two second digits; the minutes are `floor(s/60)`, the seconds `s mod 60 < 60`, and minutes*60 + seconds = s |
| TimeFormat.ParseFormat | components/ExamTimer.tsx:77-81 | every display reads back as the number of seconds it was made from |
| TimeFormat.FormatParse | components/Part2Timer.tsx:54-58 | every well-formed "m:ss" display is exactly the one `formatTime` writes for its value |
| TimeFormat.DecimalOfValue | components/ExamTimer.tsx:80 | a canonical numeral is the one `toString` writes for its value |
| TimeFormat.FormatTimeInjective | components/ExamTimer.tsx:77-81 | different second counts never display alike |
| Transcript.Merge | App.tsx:96-111 | a fragment extends the last turn when that turn is the same speaker's (length unchanged, its text gains the fragment), otherwise appends `{speaker, fragment}` (length grows by one, the old list kept as prefix); every turn but the last is unchanged; the last turn is the fragment speaker's |
| Transcript.MergeKeepsText | App.tsx:99-101 | the concatenated transcript text gains exactly the fragment, at the end |
| Transcript.MergeKeepsAlternating | App.tsx:96-111 | if neighbouring turns alternate speakers before a fragment, they still do after it |
| Transcript.OnTranscription | App.tsx:94-112 | per message, the text added is the output transcription if present, else the input one, else nothing; the last turn is the examiner's or the student's accordingly; alternation is kept |
| Transcript.OutputWins | App.tsx:94-103 | a message with an output transcription has the same effect whatever input transcription it also carries |
| Transcript.Aggregate | App.tsx:45 | from the empty list, any fragment sequence yields no more turns than fragments, the last turn being the last fragment's speaker |
| Transcript.AggregateInvariants | App.tsx:96-111 | from the empty list, any fragment sequence yields turns that alternate speakers and whose concatenated text is the fragments' text in arrival order |
| Transcript.RunFormsOneTurn | App.tsx:96-111 | a run of one speaker's fragments after nothing or after the other speaker becomes exactly one new turn holding the run's concatenated text |
| Transcript.SealedTurnsStable | App.tsx:99 | later fragments never change any turn but the last, nor shorten the list |
| Transcript.RenderShowsEachLine | App.tsx:153 | the rendered transcript is each turn's "Student: text"/"Examiner: text" line in order, separated by single newlines, with nothing before, between or after |
| Transcript.PromptShowsEachLine | App.tsx:150-153 | the scoring request starts with the fixed instruction, and after it each turn's "Student: …"/"Examiner: …" line sits where the rendering places it |
| Transcript.PromptLineBounds | App.tsx:150-153 | in the scoring request a newline comes right before each turn's line but the first, and the last turn's line ends the request |
| Transcript.AfterHeaderShowsEachLine | App.tsx:150-153 | behind any instruction text, each rendered "Student: …"/"Examiner: …" line keeps its place, shifted by the instruction's length |
| Transcript.AfterHeaderLineBounds | App.tsx:150-153 | behind any instruction text, a newline still precedes each line but the first and the last line still ends the text |
| Playback.StartOf | App.tsx:82 | a chunk starts at the cursor or at the current time, whichever is later |
| Playback.NoOverlap | App.tsx:82-89 | no chunk starts before it was handled or before the previous chunk ends |
| Playback.CursorGrows | App.tsx:88-89 | without interruption the cursor never moves backwards |
| Playback.BufferedCursor | App.tsx:88-89 | while each chunk arrives before queued audio runs out, the cursor moves by exactly the chunks' total duration |
| Playback.GaplessWhileBuffered | App.tsx:82-89 | while each chunk arrives before queued audio runs out, chunk i starts at the initial cursor plus the durations of chunks 0..i-1 |
| Session.App.constructor | App.tsx:11-25 | a new controller is idle with an empty transcript, no score, no handles, cursor 0 and no sources |
| Session.App.StartPractice | App.tsx:41-45 | starting from idle (the topic buttons are enabled only then, App.tsx:185) selects the topic, clears the transcript and enters loading |
| Session.App.MicSettled | App.tsx:53-54 | a granted microphone stores a fresh stream, replacing a stream still held without releasing it; a refusal returns to idle |
| Session.App.OnOpen | App.tsx:59-60 | the session opening makes the state active |
| Session.App.ConnectSettled | App.tsx:134-137 | a successful connection stores a fresh session, replacing a session still held without closing it; a failed one returns to idle and leaves the stream as it was |
| Session.App.ScheduleChunk | App.tsx:80-91 | a chunk starts at `max(cursor, now)`, never before now or the old cursor; the cursor advances by exactly its duration; the fresh playing source joins the in-flight set; in-flight sources never overlap and all end by the cursor |
| Session.App.OnEnded | App.tsx:87 | a source that ended leaves the in-flight set |
| Session.App.Interrupt | App.tsx:114-118 | every in-flight source is stopped, the set emptied and the cursor set to 0 |
| Session.App.OnMessage | App.tsx:77-119 | a message schedules its audio, merges its transcription, and on interruption stops everything including the chunk it just started |
| Session.App.OnUndecodableMessage | App.tsx:80-83 | an undecodable audio payload leaves the cursor at the later of itself and the handling time, starts no source, and applies neither the transcription nor the interruption |
| Session.App.StopSession | App.tsx:27-39 | the held session is closed and the held stream released, every source stopped, the set emptied and the state idle; handles no longer held are untouched and the cursor is kept |
| Session.App.GenerateEvaluation | App.tsx:141-153 | with fewer than two turns nothing changes; otherwise the state becomes evaluating and the prompt renders the transcript |
| Session.App.EvaluationSettled | App.tsx:159-165 | a parsed score is kept and the session stopped: held handles released, every previously in-flight source stopped and the set emptied; a failure returns to idle with the stream and session still held and unreleased |
| Session.App.CloseEvaluation | App.tsx:351-356 | closing the score clears score, topic and transcript and returns to idle |
| Session.StartSession | App.tsx:41-134 | from idle, choosing a topic, a granted microphone, the session opening and a successful connection give an active app holding a fresh stream and a fresh session, with the cursor and in-flight sources untouched |
| Session.PracticeRound | App.tsx:27-60 | a session that is started, granted, opened, connected, fed audio and stopped ends idle holding nothing, with every handle it acquired released and no source in flight |
| Session.LeakAfterFailedConnect | App.tsx:53-54 | after a failed connection and a second, stopped session, the app is idle and holds nothing, yet the first stream was never released |
| Session.StopReleasesKeptStream | App.tsx:27-39 | a stream kept after a failed connection is released by a stop pressed during the next start's microphone request |
| Session.StopWhileLoading | App.tsx:53-60 | a stop while the microphone request is pending does not prevent the stream being stored and the session becoming active |
| Session.RestartKeepsCursor | App.tsx:27-39 | after a session whose chunk moved the cursor to `duration` is stopped and a new one started, the first chunk handled at `now` starts at `max(duration, now)`, not at `now` |
| Session.InterruptThenResume | App.tsx:114-118 | after an interruption the next chunk starts exactly at the time it is handled |
| CueCard.OneActionPerPhase | components/Part2Timer.tsx:104-143 | in every reachable state exactly one button shows: idle offers only startPrep, preparing only startSpeaking, speaking and finished only reset |
| CueCard.Part2Timer.constructor | components/Part2Timer.tsx:11-12 | the timer starts idle with no time left |
| CueCard.Part2Timer.StartPrep | components/Part2Timer.tsx:14-17 | starting preparation gives (preparing, 60) |
| CueCard.Part2Timer.StartSpeaking | components/Part2Timer.tsx:19-22 | starting to speak gives (speaking, 120) |
| CueCard.Part2Timer.Reset | components/Part2Timer.tsx:24-27 | reset gives (idle, 0) |
| CueCard.Part2Timer.Tick | components/Part2Timer.tsx:31-35 | a tick takes exactly one second off while preparing or speaking with time left, and changes nothing otherwise; the time bounds of each phase are kept |
| CueCard.Part2Timer.Settle | components/Part2Timer.tsx:36-44 | speaking at zero becomes finished and reports completion; preparing at zero stays preparing; nothing else changes |
| CueCard.Part2Timer.Press | components/Part2Timer.tsx:104-143 | pressing a shown button runs its handler: idle → (preparing, 60), preparing → (speaking, 120), speaking or finished → (idle, 0) |
| ExamTimer.ExamTimer.constructor | components/ExamTimer.tsx:13-26 | the panel starts on Part 1 with all timers at zero and stopped, Part 2 idle |
| ExamTimer.ExamTimer.P2Display | components/ExamTimer.tsx:167 | the Part 2 clock shows "--:--" while idle; otherwise it shows the remaining time as "m:ss", which reads back as that time, never above two minutes |
| ExamTimer.ExamTimer.SelectTab | components/ExamTimer.tsx:201 | switching tabs changes only the active tab |
| ExamTimer.ExamTimer.ToggleRunning | components/ExamTimer.tsx:114 | Start/Pause flips that part's running flag and touches nothing else |
| ExamTimer.ExamTimer.ResetStopwatch | components/ExamTimer.tsx:122 | Reset stops that part's stopwatch and sets its time to 0, leaving the other part alone |
| ExamTimer.ExamTimer.TickP1 | components/ExamTimer.tsx:29-35 | while running, a tick adds 1 to the Part 1 time only; an over-time flag stays raised |
| ExamTimer.ExamTimer.TickP3 | components/ExamTimer.tsx:37-43 | while running, a tick adds 1 to the Part 3 time only; an over-time flag stays raised |
| ExamTimer.ExamTimer.PressP2 | components/ExamTimer.tsx:172-183 | idle → (preparing, 60), preparing → (speaking, 120), speaking and finished → idle keeping the remaining time |
| ExamTimer.ExamTimer.TickP2 | components/ExamTimer.tsx:45-57 | the Part 2 countdown loses one second only while preparing or speaking with time left |
| ExamTimer.ExamTimer.SettleP2 | components/ExamTimer.tsx:47-54 | speaking at zero becomes finished; preparing at zero stays |
| ExamTimer.ExamTimer.TurnTick | components/ExamTimer.tsx:60-68 | the turn timer gains one second per tick exactly while the session is live and the student speaks, and a tick never clears the over-time flag (>30 on Part 1, >60 elsewhere) |
| ExamTimer.ExamTimer.SpeakingChanged | components/ExamTimer.tsx:71-75 | when speech starts the turn timer restarts from 0 |

## Left out

- Rendering, styling, the sidebar toggle, `VoiceIndicator` and `EvaluationModal`: display only.
- The vendor SDK calls (opening the live session, sending audio, the scoring request, `JSON.parse` of its answer): each outcome is a method parameter.
- Microphone capture, audio contexts, the script processor that forwards input frames (App.tsx:61-75), and the codec helpers `decode`, `decodeAudioData` and `createBlob`: browser and library code. A decoded chunk is represented only by its duration.
- The `await` between reading the cursor and starting a source (App.tsx:82-83): each message is handled as one atomic step. In the program the same `await` also runs before the transcript update and the interrupt handling (App.tsx:94-118), so a later message without audio can have its fragment applied, or its interruption take effect, before an earlier message's chunk starts. "Arrival order" in `Transcript.AggregateInvariants` and the order of `OnMessage` calls mean handling order, not network arrival order.
- The stale `state` read inside the audio-input callback (App.tsx:65): it only gates sending input audio, which is not modelled.
- Real-clock interval scheduling and React effect timing: each interval firing and each effect run is an explicit method call.
- Floating-point progress percentages (components/Part2Timer.tsx:49-52, components/ExamTimer.tsx:90 and 147) and the volume threshold `currentVolume > 0.1`: the speaking flag is a boolean input.
- Floating-point rounding of audio-clock times: the model uses exact `real` arithmetic.
- The grammar-correction fields of a transcript turn, session history and persistence: nothing in the modelled code sets them.
- The `generating_audio` session state exists in the type but nothing sets it; `onerror` only logs.
- `formatTime` on negative numbers: every value it is given is non-negative here, since the timer invariants keep remaining time at 0 or above.
