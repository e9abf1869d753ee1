/**
 * The Part 2 cue-card timer (`Part2Timer`): one minute of preparation, then
 * two minutes of speaking, counted down one second per tick.
 */
module CueCard {

  datatype Phase = Idle | Preparing | Speaking | Finished

  const PrepSeconds: nat := 60
  const SpeakSeconds: nat := 120

  /** The buttons the timer can show, by their labels. */
  datatype Button = StartPrepButton | SkipToSpeakingButton | StartSpeakingButton | StopAndResetButton | ResetTimerButton

  /** What pressing a button runs. */
  datatype Handler = StartPrepHandler | StartSpeakingHandler | ResetHandler

  function HandlerOf(b: Button): Handler {
    match b
    case StartPrepButton => StartPrepHandler
    case SkipToSpeakingButton | StartSpeakingButton => StartSpeakingHandler
    case StopAndResetButton | ResetTimerButton => ResetHandler
  }

  /** The buttons shown for a phase and remaining time, in display order. */
  function Buttons(phase: Phase, timeLeft: int): seq<Button> {
    (if phase == Idle then [StartPrepButton] else [])
    + (if phase == Preparing && timeLeft > 0 then [SkipToSpeakingButton] else [])
    + (if phase == Preparing && timeLeft == 0 then [StartSpeakingButton] else [])
    + (if phase == Speaking then [StopAndResetButton] else [])
    + (if phase == Finished then [ResetTimerButton] else [])
  }

  /** The states the timer can reach: no time left when idle or finished, at most the phase's allowance otherwise. */
  predicate Bounded(phase: Phase, timeLeft: int) {
    match phase
    case Idle => timeLeft == 0
    case Preparing => 0 <= timeLeft <= PrepSeconds
    case Speaking => 0 <= timeLeft <= SpeakSeconds
    case Finished => timeLeft == 0
  }

  /**
   * In every reachable state exactly one button is shown: idle offers only
   * the preparation, preparing only speaking, speaking and finished only a
   * reset.
   */
  lemma OneActionPerPhase(phase: Phase, timeLeft: int)
    requires Bounded(phase, timeLeft)
    ensures |Buttons(phase, timeLeft)| == 1
    ensures HandlerOf(Buttons(phase, timeLeft)[0]) ==
              match phase
              case Idle => StartPrepHandler
              case Preparing => StartSpeakingHandler
              case Speaking | Finished => ResetHandler
  {
  }

  class Part2Timer {
    var phase: Phase
    var timeLeft: int

    ghost predicate Valid()
      reads this
    {
      Bounded(phase, timeLeft)
    }

    constructor ()
      ensures Valid() && phase == Idle && timeLeft == 0
    {
      phase := Idle;
      timeLeft := 0;
    }

    method StartPrep()
      modifies this
      ensures Valid() && phase == Preparing && timeLeft == PrepSeconds
    {
      phase := Preparing;
      timeLeft := PrepSeconds;
    }

    method StartSpeaking()
      modifies this
      ensures Valid() && phase == Speaking && timeLeft == SpeakSeconds
    {
      phase := Speaking;
      timeLeft := SpeakSeconds;
    }

    method Reset()
      modifies this
      ensures Valid() && phase == Idle && timeLeft == 0
    {
      phase := Idle;
      timeLeft := 0;
    }

    /**
     * One second passes: the countdown runs only while preparing or speaking
     * with time left, and then loses exactly one second.
     */
    method Tick()
      requires Valid()
      modifies this`timeLeft
      ensures Valid()
      ensures (phase == Preparing || phase == Speaking) && old(timeLeft) > 0 ==> timeLeft == old(timeLeft) - 1
      ensures !((phase == Preparing || phase == Speaking) && old(timeLeft) > 0) ==> timeLeft == old(timeLeft)
    {
      if (phase == Preparing || phase == Speaking) && timeLeft > 0 {
        timeLeft := timeLeft - 1;
      }
    }

    /**
     * The countdown reached zero: speaking becomes finished and the
     * completion callback fires; preparation stays put until the student
     * starts speaking.
     */
    method Settle() returns (completed: bool)
      requires Valid()
      modifies this`phase
      ensures Valid() && timeLeft == old(timeLeft)
      ensures completed == (old(phase) == Speaking && timeLeft == 0)
      ensures phase == (if completed then Finished else old(phase))
    {
      completed := phase == Speaking && timeLeft == 0;
      if completed {
        phase := Finished;
      }
    }

    /** A shown button is pressed and runs its handler. */
    method Press(b: Button)
      requires Valid() && b in Buttons(phase, timeLeft)
      modifies this
      ensures Valid()
      ensures old(phase) == Idle ==> phase == Preparing && timeLeft == PrepSeconds
      ensures old(phase) == Preparing ==> phase == Speaking && timeLeft == SpeakSeconds
      ensures old(phase) in {Speaking, Finished} ==> phase == Idle && timeLeft == 0
    {
      match HandlerOf(b)
      case StartPrepHandler => StartPrep();
      case StartSpeakingHandler => StartSpeaking();
      case ResetHandler => Reset();
    }
  }
}
