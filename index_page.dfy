/**
 * The page module src/pages/index.js: round generation, the older inline
 * exercise screen's speed toggle, and the App's home/exercise view switch.
 */
module IndexPage {
  import opened Wrappers
  import opened Exercisegame

  function Min(a: nat, b: nat): (m: nat)
  {
    if a <= b then a else b
  }

  /** `s` without its element at `k`. */
  function RemoveAt<T>(s: seq<T>, k: nat): (r: seq<T>)
    requires k < |s|
    ensures |r| == |s| - 1
    ensures multiset(r) + multiset{s[k]} == multiset(s)
  {
    assert s == s[..k] + [s[k]] + s[k + 1..];
    s[..k] + s[k + 1..]
  }

  /**
   * `[...items].sort(() => Math.random() - 0.5)`. The random comparator is
   * modelled by `picks`: each pick chooses which of the remaining items comes
   * next (one out of range, or a missing one, chooses the first). The result is a reordered copy; `items`
   * itself is a value and is never changed.
   */
  function Shuffle<T>(items: seq<T>, picks: seq<nat>): (shuffled: seq<T>)
    ensures |shuffled| == |items|
    ensures multiset(shuffled) == multiset(items)
    decreases |items|
  {
    if items == [] then []
    else
      var k := if picks == [] || |items| <= picks[0] then 0 else picks[0];
      [items[k]] + Shuffle(RemoveAt(items, k), if picks == [] then [] else picks[1..])
  }

  /** The picks that make `Shuffle` produce `target`. */
  ghost function PicksFor<T>(items: seq<T>, target: seq<T>): (picks: seq<nat>)
    requires multiset(target) == multiset(items)
    decreases |items|
  {
    if items == [] then []
    else
      TailIsRest(items, target);
      [IndexOf(items, target[0])] + PicksFor(RemoveAt(items, IndexOf(items, target[0])), target[1..])
  }

  ghost function IndexOf<T>(s: seq<T>, x: T): (k: nat)
    requires x in s
    ensures k < |s| && s[k] == x
  {
    if s[0] == x then 0 else 1 + IndexOf(s[1..], x)
  }

  /** Removing the first element of `target` from `items` leaves a reordering of the rest of `target`. */
  lemma TailIsRest<T>(items: seq<T>, target: seq<T>)
    requires items != [] && multiset(target) == multiset(items)
    ensures target[0] in items
    ensures multiset(target[1..]) == multiset(RemoveAt(items, IndexOf(items, target[0])))
  {
    assert |target| == |items| by {
      assert |multiset(target)| == |multiset(items)|;
    }
    assert target == [target[0]] + target[1..];
    assert target[0] in multiset(items);
    var x := target[0];
    var rest := RemoveAt(items, IndexOf(items, x));
    assert multiset(target[1..]) + multiset{x} == multiset(target);
    assert multiset(rest) + multiset{x} == multiset(items);
    calc {
      multiset(target[1..]);
      (multiset(target[1..]) + multiset{x}) - multiset{x};
      (multiset(rest) + multiset{x}) - multiset{x};
      multiset(rest);
    }
  }

  /** One step of the shuffle: a first pick below the length takes that item first. */
  lemma ShuffleStep<T>(items: seq<T>, k: nat, tail: seq<nat>)
    requires k < |items|
    ensures Shuffle(items, [k] + tail) == [items[k]] + Shuffle(RemoveAt(items, k), tail)
  {
    var picks := [k] + tail;
    assert picks[0] == k && picks[1..] == tail;
  }

  /** The shuffle can produce every reordering of `items`, so the model rules out no outcome of the random sort. */
  lemma ShuffleReachesEveryPermutation<T>(items: seq<T>, target: seq<T>)
    requires multiset(target) == multiset(items)
    ensures exists picks :: Shuffle(items, picks) == target
  {
    ShuffleFollowsPicks(items, target);
  }

  lemma {:induction false} ShuffleFollowsPicks<T>(items: seq<T>, target: seq<T>)
    requires multiset(target) == multiset(items)
    ensures Shuffle(items, PicksFor(items, target)) == target
    decreases |items|
  {
    if items == [] {
      assert |multiset(target)| == 0;
    } else {
      TailIsRest(items, target);
      var k := IndexOf(items, target[0]);
      var rest := RemoveAt(items, k);
      var tailPicks := PicksFor(rest, target[1..]);
      ShuffleFollowsPicks(rest, target[1..]);
      assert PicksFor(items, target) == [k] + tailPicks;
      ShuffleStep(items, k, tailPicks);
      assert target == [target[0]] + target[1..];
    }
  }

  /** The category whose bank the page knows. */
  const Grocery: string := "grocery"

  /**
   * `generateExerciseRounds(category, exerciseType, count = 10)`: empty for any
   * category but 'grocery'; otherwise the first `count` items of a reordered
   * copy of the grocery bank.
   */
  function GenerateExerciseRounds<T>(category: string, groceryItems: seq<T>, picks: seq<nat>, count: nat := 10): (rounds: seq<T>)
    ensures category != Grocery ==> rounds == []
    ensures category == Grocery ==> |rounds| == Min(count, |groceryItems|)
    ensures multiset(rounds) <= multiset(groceryItems)
  {
    if category != Grocery then []
    else
      var shuffled := Shuffle(groceryItems, picks);
      var n := Min(count, |shuffled|);
      assert shuffled == shuffled[..n] + shuffled[n..];
      shuffled[..n]
  }

  /** Every round comes from the bank, and a bank no larger than `count` is returned whole, each item once. */
  lemma RoundsComeFromBank<T>(groceryItems: seq<T>, picks: seq<nat>, count: nat)
    ensures forall x :: x in GenerateExerciseRounds(Grocery, groceryItems, picks, count) ==> x in groceryItems
    ensures |groceryItems| <= count ==>
      multiset(GenerateExerciseRounds(Grocery, groceryItems, picks, count)) == multiset(groceryItems)
  {
    var rounds := GenerateExerciseRounds(Grocery, groceryItems, picks, count);
    forall x | x in rounds ensures x in groceryItems {
      assert x in multiset(rounds);
    }
    if |groceryItems| <= count {
      assert rounds == Shuffle(groceryItems, picks);
    }
  }

  /** Every choice of `count` rounds in any order from the bank is a possible outcome. */
  lemma {:induction false} EveryPrefixOfAPermutationIsPossible<T>(groceryItems: seq<T>, order: seq<T>, count: nat)
    requires multiset(order) == multiset(groceryItems)
    ensures exists picks :: GenerateExerciseRounds(Grocery, groceryItems, picks, count) == order[..Min(count, |order|)]
  {
    ShuffleFollowsPicks(groceryItems, order);
    var picks := PicksFor(groceryItems, order);
    assert |order| == |groceryItems| by {
      assert |multiset(order)| == |multiset(groceryItems)|;
    }
    assert GenerateExerciseRounds(Grocery, groceryItems, picks, count) == order[..Min(count, |order|)];
  }

  // ---------------------------------------------------------------------------
  // The older exercise screen defined inline in index.js

  /** The slow multiplier of the older screen. */
  const LegacySlowRate: real := 0.5

  function LegacyPlaybackRate(speed: Speed): (rate: real)
    ensures 0.0 < rate <= 1.0
    ensures rate == 1.0 <==> speed == Normal
  {
    if speed == Normal then 1.0 else LegacySlowRate
  }

  /**
   * The inline screen's state cells. Its option buttons are stubs, so no
   * handler but `togglePlaybackSpeed` changes any of them.
   */
  class LegacyExerciseGame {
    const rounds: seq<Round>
    var currentRoundIndex: nat
    var gameState: GameState
    var selectedAnswer: Option<string>
    var score: nat
    var totalAttempts: nat
    var playbackSpeed: Speed

    constructor (rounds: seq<Round>)
      ensures this.rounds == rounds && currentRoundIndex == 0 && gameState == Playing
      ensures selectedAnswer == None && score == 0 && totalAttempts == 0 && playbackSpeed == Normal
    {
      this.rounds := rounds;
      currentRoundIndex := 0;
      gameState := Playing;
      selectedAnswer := None;
      score := 0;
      totalAttempts := 0;
      playbackSpeed := Normal;
    }

    /** A stored speed of 1 becomes 0.5; anything else becomes 1. */
    method TogglePlaybackSpeed()
      modifies this`playbackSpeed
      ensures LegacyPlaybackRate(playbackSpeed) == if LegacyPlaybackRate(old(playbackSpeed)) == 1.0 then LegacySlowRate else 1.0
    {
      playbackSpeed := ToggledSpeed(playbackSpeed);
    }
  }

  /** Toggling the older screen twice from normal speed returns to normal, via 0.5. */
  lemma LegacyToggleTwice()
    ensures LegacyPlaybackRate(ToggledSpeed(Normal)) == LegacySlowRate
    ensures LegacyPlaybackRate(ToggledSpeed(ToggledSpeed(Normal))) == 1.0
  {
  }

  // ---------------------------------------------------------------------------
  // The App view switch

  datatype View = Home | Exercise

  /** What the App renders: the home page, or the exercise screen with its props. */
  datatype Screen = HomePage | ExerciseScreen(exerciseType: Option<string>, category: string, rounds: seq<Round>)

  class App {
    var currentView: View
    var selectedExercise: Option<string>

    constructor ()
      ensures currentView == Home && selectedExercise == None
    {
      currentView := Home;
      selectedExercise := None;
    }

    method HandleExerciseSelect(exerciseId: string)
      modifies this
      ensures currentView == Exercise && selectedExercise == Some(exerciseId)
    {
      selectedExercise := Some(exerciseId);
      currentView := Exercise;
    }

    method HandleHome()
      modifies this
      ensures currentView == Home && selectedExercise == None
    {
      currentView := Home;
      selectedExercise := None;
    }

    /**
     * The App's render: the home page in the home view; otherwise the grocery
     * rounds (default count) handed to the exercise screen with the selected id.
     */
    function Render(groceryItems: seq<Round>, picks: seq<nat>): (screen: Screen)
      reads this
      ensures screen.HomePage? <==> currentView == Home
      ensures screen.ExerciseScreen? ==>
        && screen.exerciseType == selectedExercise
        && |screen.rounds| == Min(10, |groceryItems|)
        && multiset(screen.rounds) <= multiset(groceryItems)
    {
      if currentView == Home then HomePage
      else ExerciseScreen(selectedExercise, "Grocery", GenerateExerciseRounds(Grocery, groceryItems, picks))
    }
  }
}
