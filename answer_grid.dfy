/**
 * The option buttons of src/components/Exercisegame/components/AnswerGrid/AnswerGrid.js:
 * one button per option, in option order, each disabled, marked correct or
 * marked incorrect according to the game state and the two answers.
 */
module AnswerGrid {
  import opened Wrappers
  import opened Exercisegame

  /** What the grid renders for one option (its CSS classes and `disabled` flag). */
  datatype OptionButton = OptionButton(option: string, disabled: bool, markedCorrect: bool, markedIncorrect: bool)

  function ButtonFor(option: string, selectedAnswer: Option<string>, correctAnswer: string, gameState: GameState): (b: OptionButton)
    ensures b.option == option
    ensures !(b.markedCorrect && b.markedIncorrect)
    // only the buttons of a shown result, which are all disabled, carry a mark
    ensures (b.markedCorrect || b.markedIncorrect) ==> b.disabled
    ensures b.markedIncorrect ==> selectedAnswer == Some(option)
  {
    var showing := gameState == ShowingResult;
    OptionButton(option,
      showing,
      showing && option == correctAnswer,
      showing && Some(option) == selectedAnswer && option != correctAnswer)
  }

  /** `options.map(...)`: one button per option, in the same order. */
  function Buttons(options: seq<string>, selectedAnswer: Option<string>, correctAnswer: string, gameState: GameState): (buttons: seq<OptionButton>)
    ensures |buttons| == |options|
    ensures forall i :: 0 <= i < |buttons| ==> buttons[i].option == options[i]
  {
    seq(|options|, i requires 0 <= i < |options| => ButtonFor(options[i], selectedAnswer, correctAnswer, gameState))
  }

  /** No option appears twice. */
  predicate Distinct(options: seq<string>)
  {
    forall i, j :: 0 <= i < j < |options| ==> options[i] != options[j]
  }

  /** The per-option rule of the grid. */
  lemma ButtonRules(options: seq<string>, selectedAnswer: Option<string>, correctAnswer: string, gameState: GameState, i: nat)
    requires i < |options|
    ensures var b := Buttons(options, selectedAnswer, correctAnswer, gameState)[i];
      && (b.disabled <==> gameState == ShowingResult)
      && (gameState == Playing ==> !b.markedCorrect && !b.markedIncorrect)
      && (gameState == ShowingResult ==> (b.markedCorrect <==> options[i] == correctAnswer))
      && (b.markedIncorrect <==>
            gameState == ShowingResult && selectedAnswer == Some(options[i]) && options[i] != correctAnswer)
      && !(b.markedCorrect && b.markedIncorrect)
  {
  }

  /** While a result is shown, exactly one button is marked correct when the correct sentence is among distinct options. */
  lemma ExactlyOneMarkedCorrect(options: seq<string>, selectedAnswer: Option<string>, correctAnswer: string)
    requires Distinct(options) && correctAnswer in options
    ensures var buttons := Buttons(options, selectedAnswer, correctAnswer, ShowingResult);
      && (exists i :: 0 <= i < |buttons| && buttons[i].markedCorrect)
      && (forall i, j :: 0 <= i < |buttons| && 0 <= j < |buttons| && buttons[i].markedCorrect && buttons[j].markedCorrect ==> i == j)
  {
    var buttons := Buttons(options, selectedAnswer, correctAnswer, ShowingResult);
    var k :| 0 <= k < |options| && options[k] == correctAnswer;
    assert buttons[k].markedCorrect;
  }

  /**
   * While a result is shown over distinct options containing the selection, a
   * button is marked incorrect exactly when the feedback says "incorrect", and
   * then it is the selected one alone.
   */
  lemma IncorrectMarkMatchesFeedback(round: Round, selectedAnswer: Option<string>)
    requires Distinct(round.options) && selectedAnswer.Some? && selectedAnswer.value in round.options
    ensures var buttons := Buttons(round.options, selectedAnswer, round.sentence, ShowingResult);
      && ((exists i :: 0 <= i < |buttons| && buttons[i].markedIncorrect) <==> !FeedbackIsCorrect(selectedAnswer, round))
      && (forall i :: 0 <= i < |buttons| && buttons[i].markedIncorrect ==> round.options[i] == selectedAnswer.value)
      && (forall i, j :: 0 <= i < |buttons| && 0 <= j < |buttons| && buttons[i].markedIncorrect && buttons[j].markedIncorrect ==> i == j)
  {
    var buttons := Buttons(round.options, selectedAnswer, round.sentence, ShowingResult);
    var k :| 0 <= k < |round.options| && round.options[k] == selectedAnswer.value;
    if !FeedbackIsCorrect(selectedAnswer, round) {
      assert buttons[k].markedIncorrect;
    }
  }

  /** The grid the game renders for its current round. */
  function GameButtons(game: ExerciseGame): (buttons: seq<OptionButton>)
    reads game
    requires game.Valid()
    ensures |buttons| == |game.CurrentRound().options|
    ensures game.gameState == Playing ==> forall i :: 0 <= i < |buttons| ==> !buttons[i].disabled && !buttons[i].markedIncorrect
  {
    Buttons(game.CurrentRound().options, game.selectedAnswer, game.CurrentRound().sentence, game.gameState)
  }
}
