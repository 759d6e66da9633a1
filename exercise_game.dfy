/**
 * The quiz session component of src/components/Exercisegame/ExerciseGame.js.
 *
 * The component keeps six React state cells (round index, game state, selected
 * answer, score, attempt count, playback speed) and changes them only through
 * three handlers. The class `ExerciseGame` below holds those cells as fields and
 * the handlers as methods; the pure `Session` value and its transition functions
 * are the specification the methods are proved against, and the lemmas about
 * them state what every reachable session satisfies.
 */
module Exercisegame {
  import opened Wrappers

  /** The two values of `gameState`: 'playing' and 'showing_result'. */
  datatype GameState = Playing | ShowingResult

  /** `playbackSpeed`: the source stores 1 or a slow multiplier. */
  datatype Speed = Normal | Slow

  /** One sentence item of the bank: its audio, its correct text and the choices shown. */
  datatype Round = Round(audioPath: string, sentence: string, options: seq<string>)

  /** The slow multiplier this component uses. */
  const SlowRate: real := 0.65

  /** The multiplier the component stores for a speed. */
  function PlaybackRate(speed: Speed): (rate: real)
    ensures 0.0 < rate <= 1.0
    ensures rate == 1.0 <==> speed == Normal
  {
    if speed == Normal then 1.0 else SlowRate
  }

  /** The speed toggle: a stored speed of 1 becomes the slow multiplier, anything else becomes 1. */
  function ToggledSpeed(speed: Speed): (toggled: Speed)
    ensures PlaybackRate(toggled) == if PlaybackRate(speed) == 1.0 then SlowRate else 1.0
  {
    if speed == Normal then Slow else Normal
  }

  lemma ToggleTwiceRestores(speed: Speed)
    ensures ToggledSpeed(ToggledSpeed(speed)) == speed
    ensures ToggledSpeed(ToggledSpeed(Normal)) == Normal && PlaybackRate(ToggledSpeed(Normal)) == SlowRate
  {
  }

  /** The feedback banner shows "Correct!" exactly when the selected answer is the round's sentence. */
  function FeedbackIsCorrect(selectedAnswer: Option<string>, round: Round): (correct: bool)
    ensures selectedAnswer == None ==> !correct
    ensures correct ==> selectedAnswer.value == round.sentence
    ensures selectedAnswer == Some(round.sentence) ==> correct
  {
    selectedAnswer == Some(round.sentence)
  }

  /** The final score the component announces when the last round is done. */
  datatype Final = Final(score: nat, totalAttempts: nat)

  /**
   * A snapshot of the component's state cells. `replayRequests` records, in
   * order, the round index at which each delayed replay of the audio was
   * scheduled; the source never cancels one, so nothing removes an entry.
   */
  datatype Session = Session(
    currentRoundIndex: nat,
    gameState: GameState,
    selectedAnswer: Option<string>,
    score: nat,
    totalAttempts: nat,
    playbackSpeed: Speed,
    replayRequests: seq<nat>)

  /** The initial values of the state cells. */
  function InitialSession(): (s: Session)
    ensures s.score == 0 && s.totalAttempts == 0 && s.replayRequests == []
    ensures s.gameState == Playing && s.selectedAnswer == None && s.playbackSpeed == Normal
    ensures forall rounds: seq<Round> :: |rounds| > 0 ==> Consistent(rounds, s)
  {
    Session(0, Playing, None, 0, 0, Normal, [])
  }

  /** What holds of every session the handlers can reach over `rounds`. */
  predicate Consistent(rounds: seq<Round>, s: Session)
  {
    && s.currentRoundIndex < |rounds|
    && s.score <= s.totalAttempts
    && s.totalAttempts <= s.currentRoundIndex + 1
    && (s.gameState == Playing ==> s.totalAttempts <= s.currentRoundIndex)
    && (s.selectedAnswer == None <==> s.gameState == Playing)
    // every attempt either scored or scheduled one replay
    && s.score + |s.replayRequests| == s.totalAttempts
    && (forall k :: 0 <= k < |s.replayRequests| ==> s.replayRequests[k] <= s.currentRoundIndex)
  }

  /** `handleOptionSelect(option)`: ignored unless playing. */
  function OptionSelected(rounds: seq<Round>, s: Session, option: string): (t: Session)
    requires s.currentRoundIndex < |rounds|
    ensures t.currentRoundIndex == s.currentRoundIndex && t.playbackSpeed == s.playbackSpeed
    ensures s.gameState == ShowingResult ==> t == s
    ensures s.gameState == Playing ==> t.gameState == ShowingResult && t.selectedAnswer == Some(option)
    // each accepted answer adds one attempt and exactly one of: a point, a replay request
    ensures t.totalAttempts - s.totalAttempts == (t.score - s.score) + (|t.replayRequests| - |s.replayRequests|)
    ensures s.replayRequests <= t.replayRequests
  {
    if s.gameState != Playing then s
    else if option == rounds[s.currentRoundIndex].sentence then
      s.(selectedAnswer := Some(option), gameState := ShowingResult,
         totalAttempts := s.totalAttempts + 1, score := s.score + 1)
    else
      s.(selectedAnswer := Some(option), gameState := ShowingResult,
         totalAttempts := s.totalAttempts + 1,
         replayRequests := s.replayRequests + [s.currentRoundIndex])
  }

  /** Whether `handleNext` takes the end-of-session branch. */
  function OnLastRound(rounds: seq<Round>, s: Session): (last: bool)
    ensures s.currentRoundIndex < |rounds| ==> (last <==> s.currentRoundIndex == |rounds| - 1)
  {
    !(s.currentRoundIndex < |rounds| - 1)
  }

  /** The state after `handleNext`; on the last round no state cell is set. */
  function AfterNext(rounds: seq<Round>, s: Session): (t: Session)
    ensures t.score == s.score && t.totalAttempts == s.totalAttempts
    ensures t.playbackSpeed == s.playbackSpeed && t.replayRequests == s.replayRequests
    ensures s.currentRoundIndex < |rounds| ==> t.currentRoundIndex < |rounds|
    ensures t.currentRoundIndex == s.currentRoundIndex || t.currentRoundIndex == s.currentRoundIndex + 1
    ensures t.currentRoundIndex == s.currentRoundIndex + 1 ==> t.gameState == Playing && t.selectedAnswer == None
  {
    if OnLastRound(rounds, s) then s
    else s.(currentRoundIndex := s.currentRoundIndex + 1, gameState := Playing, selectedAnswer := None)
  }

  /** What `handleNext` announces: the final score on the last round, nothing otherwise. */
  function NextCompletion(rounds: seq<Round>, s: Session): (done: Option<Final>)
    ensures done.Some? <==> OnLastRound(rounds, s)
    ensures done.Some? ==> done.value.score == s.score && done.value.totalAttempts == s.totalAttempts
  {
    if OnLastRound(rounds, s) then Some(Final(s.score, s.totalAttempts)) else None
  }

  /** `handleSpeedToggle`. */
  function SpeedToggled(s: Session): (t: Session)
    ensures t.playbackSpeed != s.playbackSpeed
    ensures t.(playbackSpeed := s.playbackSpeed) == s
  {
    s.(playbackSpeed := ToggledSpeed(s.playbackSpeed))
  }

  /** The user intents the component accepts. */
  datatype Event = SelectOption(option: string) | Next | ToggleSpeed

  function Step(rounds: seq<Round>, s: Session, e: Event): (t: Session)
    requires s.currentRoundIndex < |rounds|
  {
    match e
    case SelectOption(option) => OptionSelected(rounds, s, option)
    case Next => AfterNext(rounds, s)
    case ToggleSpeed => SpeedToggled(s)
  }

  /** The session after a sequence of events, starting from `s`. */
  function Run(rounds: seq<Round>, s: Session, events: seq<Event>): (t: Session)
    requires Consistent(rounds, s)
    decreases |events|
  {
    if events == [] then s
    else
      StepKeepsConsistent(rounds, s, events[0]);
      Run(rounds, Step(rounds, s, events[0]), events[1..])
  }

  // ---------------------------------------------------------------------------
  // Properties of the transitions

  lemma SelectWhilePlaying(rounds: seq<Round>, s: Session, option: string)
    requires s.currentRoundIndex < |rounds| && s.gameState == Playing
    ensures var t := OptionSelected(rounds, s, option);
      && t.selectedAnswer == Some(option)
      && t.gameState == ShowingResult
      && t.totalAttempts == s.totalAttempts + 1
      && t.currentRoundIndex == s.currentRoundIndex
      && t.playbackSpeed == s.playbackSpeed
      && (option == rounds[s.currentRoundIndex].sentence ==>
            t.score == s.score + 1 && t.replayRequests == s.replayRequests)
      && (option != rounds[s.currentRoundIndex].sentence ==>
            t.score == s.score && t.replayRequests == s.replayRequests + [s.currentRoundIndex])
  {
  }

  lemma SelectWhileShowingResultIsIgnored(rounds: seq<Round>, s: Session, option: string)
    requires s.currentRoundIndex < |rounds| && s.gameState == ShowingResult
    ensures OptionSelected(rounds, s, option) == s
  {
  }

  /** After an answer, the feedback says "correct" exactly when the score went up, and "incorrect" exactly when a replay was scheduled. */
  lemma FeedbackMatchesScore(rounds: seq<Round>, s: Session, option: string)
    requires s.currentRoundIndex < |rounds| && s.gameState == Playing
    ensures var t := OptionSelected(rounds, s, option);
      && (FeedbackIsCorrect(t.selectedAnswer, rounds[t.currentRoundIndex]) <==> t.score == s.score + 1)
      && (!FeedbackIsCorrect(t.selectedAnswer, rounds[t.currentRoundIndex]) <==>
            |t.replayRequests| == |s.replayRequests| + 1)
  {
  }

  lemma NextAdvances(rounds: seq<Round>, s: Session)
    requires s.currentRoundIndex < |rounds| - 1
    ensures var t := AfterNext(rounds, s);
      && t.currentRoundIndex == s.currentRoundIndex + 1
      && t.gameState == Playing && t.selectedAnswer == None
      && t.score == s.score && t.totalAttempts == s.totalAttempts
      && t.playbackSpeed == s.playbackSpeed && t.replayRequests == s.replayRequests
    ensures NextCompletion(rounds, s) == None
  {
  }

  lemma NextOnLastRoundCompletes(rounds: seq<Round>, s: Session)
    requires s.currentRoundIndex == |rounds| - 1
    ensures AfterNext(rounds, s) == s
    ensures NextCompletion(rounds, s) == Some(Final(s.score, s.totalAttempts))
  {
  }

  /**
   * A wrong answer followed by "Next" leaves the replay scheduled for the round
   * just left while the session shows the following round: nothing cancels it.
   */
  lemma ReplaySurvivesNext(rounds: seq<Round>, s: Session, option: string)
    requires s.currentRoundIndex < |rounds| - 1 && s.gameState == Playing
    requires option != rounds[s.currentRoundIndex].sentence
    ensures var t := AfterNext(rounds, OptionSelected(rounds, s, option));
      && t.currentRoundIndex == s.currentRoundIndex + 1
      && t.replayRequests == s.replayRequests + [s.currentRoundIndex]
  {
  }

  lemma SpeedToggleChangesOnlySpeed(s: Session)
    ensures SpeedToggled(s).playbackSpeed != s.playbackSpeed
    ensures SpeedToggled(s).(playbackSpeed := s.playbackSpeed) == s
    ensures SpeedToggled(SpeedToggled(s)) == s
  {
  }

  lemma InitialIsConsistent(rounds: seq<Round>)
    requires |rounds| > 0
    ensures Consistent(rounds, InitialSession())
  {
  }

  lemma StepKeepsConsistent(rounds: seq<Round>, s: Session, e: Event)
    requires Consistent(rounds, s)
    ensures Consistent(rounds, Step(rounds, s, e))
  {
  }

  /** Every state reachable from a consistent one is consistent. */
  lemma {:induction false} RunKeepsConsistent(rounds: seq<Round>, s: Session, events: seq<Event>)
    requires Consistent(rounds, s)
    ensures Consistent(rounds, Run(rounds, s, events))
    decreases |events|
  {
    if events != [] {
      StepKeepsConsistent(rounds, s, events[0]);
      RunKeepsConsistent(rounds, Step(rounds, s, events[0]), events[1..]);
    }
  }

  /**
   * Over any sequence of user events from the initial state: the round index
   * stays in range, score <= totalAttempts <= currentRoundIndex + 1, and
   * selectedAnswer is null exactly while playing.
   */
  lemma ReachableSessionsAreConsistent(rounds: seq<Round>, events: seq<Event>)
    requires |rounds| > 0
    ensures var s := Run(rounds, InitialSession(), events);
      && s.currentRoundIndex < |rounds|
      && s.score <= s.totalAttempts <= s.currentRoundIndex + 1
      && (s.selectedAnswer == None <==> s.gameState == Playing)
  {
    InitialIsConsistent(rounds);
    RunKeepsConsistent(rounds, InitialSession(), events);
  }

  /**
   * Counters only grow and scheduled replays are never withdrawn: along any
   * run the round index, score and attempt count do not decrease and the
   * earlier replay requests stay a prefix of the later ones.
   */
  lemma {:induction false} RunOnlyGrows(rounds: seq<Round>, s: Session, events: seq<Event>)
    requires Consistent(rounds, s)
    ensures var t := Run(rounds, s, events);
      && s.currentRoundIndex <= t.currentRoundIndex
      && s.score <= t.score
      && s.totalAttempts <= t.totalAttempts
      && s.replayRequests <= t.replayRequests
    decreases |events|
  {
    if events != [] {
      StepKeepsConsistent(rounds, s, events[0]);
      RunOnlyGrows(rounds, Step(rounds, s, events[0]), events[1..]);
    }
  }

  // ---------------------------------------------------------------------------
  // The component, with its state cells as fields

  class ExerciseGame {
    const rounds: seq<Round>
    var currentRoundIndex: nat
    var gameState: GameState
    var selectedAnswer: Option<string>
    var score: nat
    var totalAttempts: nat
    var playbackSpeed: Speed
    var replayRequests: seq<nat>

    function Snapshot(): Session
      reads this
    {
      Session(currentRoundIndex, gameState, selectedAnswer, score, totalAttempts, playbackSpeed, replayRequests)
    }

    predicate Valid()
      reads this
    {
      Consistent(rounds, Snapshot())
    }

    /** `rounds[currentRoundIndex]`, the round on screen. */
    function CurrentRound(): (round: Round)
      reads this
      requires Valid()
      ensures round in rounds
    {
      rounds[currentRoundIndex]
    }

    constructor (rounds: seq<Round>)
      requires |rounds| > 0
      ensures Valid()
      ensures this.rounds == rounds && Snapshot() == InitialSession()
    {
      this.rounds := rounds;
      currentRoundIndex := 0;
      gameState := Playing;
      selectedAnswer := None;
      score := 0;
      totalAttempts := 0;
      playbackSpeed := Normal;
      replayRequests := [];
    }

    method HandleSpeedToggle()
      requires Valid()
      modifies this
      ensures Valid()
      ensures Snapshot() == SpeedToggled(old(Snapshot()))
    {
      playbackSpeed := ToggledSpeed(playbackSpeed);
    }

    method HandleOptionSelect(option: string)
      requires Valid()
      modifies this
      ensures Valid()
      ensures Snapshot() == OptionSelected(rounds, old(Snapshot()), option)
    {
      if gameState == Playing {
        selectedAnswer := Some(option);
        gameState := ShowingResult;
        totalAttempts := totalAttempts + 1;
        if option == rounds[currentRoundIndex].sentence {
          score := score + 1;
        } else {
          replayRequests := replayRequests + [currentRoundIndex];
        }
      }
    }

    /** Returns the final score when the last round is done (the source alerts it and goes home). */
    method HandleNext() returns (done: Option<Final>)
      requires Valid()
      modifies this
      ensures Valid()
      ensures Snapshot() == AfterNext(rounds, old(Snapshot()))
      ensures done == NextCompletion(rounds, old(Snapshot()))
    {
      if currentRoundIndex < |rounds| - 1 {
        currentRoundIndex := currentRoundIndex + 1;
        gameState := Playing;
        selectedAnswer := None;
        done := None;
      } else {
        done := Some(Final(score, totalAttempts));
      }
    }
  }
}
