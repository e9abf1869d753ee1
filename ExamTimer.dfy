/**
 * The exam timer panel (`ExamTimer`): stopwatches for Parts 1 and 3, a
 * Part 2 preparation/speaking countdown, and a timer for the current
 * spoken turn, with the thresholds at which each is shown as over time.
 * Whether the student is speaking arrives as a boolean input.
 */
module ExamTimer {
  import opened Wrappers
  import opened TimeFormat
  import opened CueCard

  datatype ExamPart = Part1 | Part2 | Part3

  /** The two parts timed by a stopwatch. */
  datatype Stopwatch = P1 | P3

  const StopwatchLimit: nat := 240

  /** The stopwatch is shown as over time past four minutes. */
  predicate StopwatchOverLimit(time: nat) {
    time > StopwatchLimit
  }

  /** The longest turn shown as on time: 30 seconds on the Part 1 tab, 60 on the others. */
  function TurnLimit(tab: ExamPart): nat {
    if tab == Part1 then 30 else 60
  }

  predicate TurnOverLimit(tab: ExamPart, turnTime: nat) {
    turnTime > TurnLimit(tab)
  }

  /** The Part 2 button shown in each phase; unlike the cue-card timer, preparing always offers "Skip to Speaking". */
  function P2Buttons(phase: Phase): seq<Button> {
    match phase
    case Idle => [StartPrepButton]
    case Preparing => [SkipToSpeakingButton]
    case Speaking => [StopAndResetButton]
    case Finished => [ResetTimerButton]
  }

  /**
   * The Part 2 states this panel can reach. Leaving the speaking phase does
   * not clear the remaining time, so idle may hold up to two minutes.
   */
  predicate P2Bounded(phase: Phase, time: int) {
    match phase
    case Idle => 0 <= time <= SpeakSeconds
    case Preparing => 0 <= time <= PrepSeconds
    case Speaking => 0 <= time <= SpeakSeconds
    case Finished => time == 0
  }

  class ExamTimer {
    var activeTab: ExamPart
    var p1Time: nat
    var p3Time: nat
    var isP1Running: bool
    var isP3Running: bool
    var p2Phase: Phase
    var p2Time: int
    var turnTime: nat

    ghost predicate Valid()
      reads this
    {
      P2Bounded(p2Phase, p2Time)
    }

    /**
     * The Part 2 clock face: "--:--" while idle, otherwise the remaining
     * time as "m:ss", which reads back as a count of at most two minutes.
     */
    function P2Display(): (r: string)
      reads this
      requires Valid()
      ensures p2Phase == Idle ==> r == "--:--"
      ensures p2Phase != Idle ==> 0 <= p2Time <= SpeakSeconds && ParseTime(r) == Some(p2Time as nat)
    {
      if p2Phase == Idle then "--:--"
      else
        ParseFormat(p2Time);
        FormatTime(p2Time)
    }

    constructor ()
      ensures Valid() && activeTab == Part1
      ensures p1Time == 0 && p3Time == 0 && !isP1Running && !isP3Running
      ensures p2Phase == Idle && p2Time == 0 && turnTime == 0
    {
      activeTab := Part1;
      p1Time, p3Time := 0, 0;
      isP1Running, isP3Running := false, false;
      p2Phase, p2Time := Idle, 0;
      turnTime := 0;
    }

    /** Switching tabs changes only the active tab. */
    method SelectTab(tab: ExamPart)
      requires Valid()
      modifies this`activeTab
      ensures Valid() && activeTab == tab
    {
      activeTab := tab;
    }

    /** "Start Timer"/"Pause" flips the part's running flag and leaves its time alone. */
    method ToggleRunning(part: Stopwatch)
      requires Valid()
      modifies this`isP1Running, this`isP3Running
      ensures Valid()
      ensures part == P1 ==> isP1Running == !old(isP1Running) && isP3Running == old(isP3Running)
      ensures part == P3 ==> isP3Running == !old(isP3Running) && isP1Running == old(isP1Running)
    {
      if part == P1 {
        isP1Running := !isP1Running;
      } else {
        isP3Running := !isP3Running;
      }
    }

    /** "Reset" stops the part's stopwatch and sets its time to zero. */
    method ResetStopwatch(part: Stopwatch)
      requires Valid()
      modifies this`isP1Running, this`isP3Running, this`p1Time, this`p3Time
      ensures Valid()
      ensures part == P1 ==> !isP1Running && p1Time == 0 && isP3Running == old(isP3Running) && p3Time == old(p3Time)
      ensures part == P3 ==> !isP3Running && p3Time == 0 && isP1Running == old(isP1Running) && p1Time == old(p1Time)
    {
      if part == P1 {
        isP1Running := false;
        p1Time := 0;
      } else {
        isP3Running := false;
        p3Time := 0;
      }
    }

    /** One second on the Part 1 stopwatch: it counts only while running, and a flag once raised stays. */
    method TickP1()
      requires Valid()
      modifies this`p1Time
      ensures Valid()
      ensures p1Time == old(p1Time) + (if isP1Running then 1 else 0)
      ensures StopwatchOverLimit(old(p1Time)) ==> StopwatchOverLimit(p1Time)
    {
      if isP1Running {
        p1Time := p1Time + 1;
      }
    }

    /** One second on the Part 3 stopwatch, likewise. */
    method TickP3()
      requires Valid()
      modifies this`p3Time
      ensures Valid()
      ensures p3Time == old(p3Time) + (if isP3Running then 1 else 0)
      ensures StopwatchOverLimit(old(p3Time)) ==> StopwatchOverLimit(p3Time)
    {
      if isP3Running {
        p3Time := p3Time + 1;
      }
    }

    /**
     * A Part 2 button: idle starts a minute of preparation, preparing starts
     * two minutes of speaking, and speaking or finished go back to idle
     * keeping the remaining time.
     */
    method PressP2(b: Button)
      requires Valid() && b in P2Buttons(p2Phase)
      modifies this`p2Phase, this`p2Time
      ensures Valid()
      ensures old(p2Phase) == Idle ==> p2Phase == Preparing && p2Time == PrepSeconds
      ensures old(p2Phase) == Preparing ==> p2Phase == Speaking && p2Time == SpeakSeconds
      ensures old(p2Phase) in {Speaking, Finished} ==> p2Phase == Idle && p2Time == old(p2Time)
    {
      match p2Phase
      case Idle =>
        p2Phase, p2Time := Preparing, PrepSeconds;
      case Preparing =>
        p2Phase, p2Time := Speaking, SpeakSeconds;
      case Speaking =>
        p2Phase := Idle;
      case Finished =>
        p2Phase := Idle;
    }

    /** One second of the Part 2 countdown: only while preparing or speaking with time left. */
    method TickP2()
      requires Valid()
      modifies this`p2Time
      ensures Valid()
      ensures (p2Phase == Preparing || p2Phase == Speaking) && old(p2Time) > 0 ==> p2Time == old(p2Time) - 1
      ensures !((p2Phase == Preparing || p2Phase == Speaking) && old(p2Time) > 0) ==> p2Time == old(p2Time)
    {
      if (p2Phase == Preparing || p2Phase == Speaking) && p2Time > 0 {
        p2Time := p2Time - 1;
      }
    }

    /** The Part 2 countdown at zero: speaking becomes finished; preparing waits for the button. */
    method SettleP2()
      requires Valid()
      modifies this`p2Phase
      ensures Valid() && p2Time == old(p2Time)
      ensures p2Phase == (if old(p2Phase) == Speaking && p2Time == 0 then Finished else old(p2Phase))
    {
      if p2Phase == Speaking && p2Time == 0 {
        p2Phase := Finished;
      }
    }

    /** One second of the turn timer: it counts while the session is live and the student is speaking. */
    method TurnTick(isActiveSession: bool, isSpeaking: bool)
      requires Valid()
      modifies this`turnTime
      ensures Valid()
      ensures turnTime == old(turnTime) + (if isActiveSession && isSpeaking then 1 else 0)
      ensures TurnOverLimit(activeTab, old(turnTime)) ==> TurnOverLimit(activeTab, turnTime)
    {
      if isActiveSession && isSpeaking {
        turnTime := turnTime + 1;
      }
    }

    /** The speaking flag changed: when speech starts the turn timer restarts from zero. */
    method SpeakingChanged(isSpeaking: bool)
      requires Valid()
      modifies this`turnTime
      ensures Valid()
      ensures turnTime == (if isSpeaking then 0 else old(turnTime))
    {
      if isSpeaking {
        turnTime := 0;
      }
    }
  }
}
