/** The game bookkeeping of the Morse trainer: the firmware's global game
    variables and the C routines that read and reset them. The button
    timing, the filling of the input buffer and the per-round matching run
    in an assembly routine that is not part of this model; the code the
    player submitted reaches these routines as the parameter `input`. */
module Game {
  import Morse
  import Colour

  datatype Option<T> = None | Some(value: T)

  /** The codes the level menu and the replay prompt ask for. */
  const LevelOneCode: string := ".----"
  const LevelTwoCode: string := "..---"
  const LevelThreeCode: string := "...--"
  const LevelFourCode: string := "....-"

  /** The level `select_difficulty` assigns for a submitted code, or None when
      it reports invalid input. As written, the fourth test repeats the third
      code, so no code selects level 4. */
  function SelectedLevel(input: string): (r: Option<int>)
    ensures r.Some? <==> input == LevelOneCode || input == LevelTwoCode || input == LevelThreeCode
    ensures r.Some? ==> 1 <= r.value <= 3
  {
    if input == LevelOneCode then Some(1)
    else if input == LevelTwoCode then Some(2)
    else if input == LevelThreeCode then Some(3)
    else if input == LevelThreeCode then Some(4)
    else None
  }

  /** Level 4 is never selected. */
  lemma LevelFourUnreachable(input: string)
    ensures SelectedLevel(input) != Some(4)
  {
  }

  /** The code the menu prints for level 4 is rejected as invalid input. */
  lemma MenuLevelFourRejected()
    ensures SelectedLevel(LevelFourCode) == None
  {
  }

  /** A selection code is the table code of the digit naming the level, and
      exactly the digits 1-3 are accepted. */
  lemma SelectionCodesAreDigits(input: string, k: int)
    ensures SelectedLevel(input) == Some(k) <==> 1 <= k <= 3 && input == Morse.Itu()[26 + k].code
  {
  }

  /** The selection the menu describes: the code of digit k selects level k, for k in 1-4. */
  function IntendedLevel(input: string): (r: Option<int>)
    ensures r.Some? ==> 1 <= r.value <= 4
  {
    if input == LevelOneCode then Some(1)
    else if input == LevelTwoCode then Some(2)
    else if input == LevelThreeCode then Some(3)
    else if input == LevelFourCode then Some(4)
    else None
  }

  /** With the fourth test corrected, every level 1-4 is selected by its
      digit's code and by nothing else. */
  lemma IntendedLevelMatchesMenu(input: string, k: int)
    ensures IntendedLevel(input) == Some(k) <==> 1 <= k <= 4 && input == Morse.Itu()[26 + k].code
  {
  }

  /** `select_random` with the value of `rand()` passed in as `rnd` (never
      negative): `high` for an empty range, otherwise a value in [low, high]. */
  function SelectRandom(low: int, high: int, rnd: int): (r: int)
    requires rnd >= 0
    ensures low > high ==> r == high
    ensures low <= high ==> low <= r <= high
  {
    if low > high then high else low + rnd % (high - low + 1)
  }

  /** Every value of a non-empty range is drawn for some random value. */
  lemma SelectRandomCoversRange(low: int, high: int, v: int)
    requires low <= v <= high
    ensures SelectRandom(low, high, v - low) == v
  {
  }

  /** The colour `set_corrrect_led` writes, or None when it writes nothing:
      blue on the level menu, otherwise green, yellow and red for 3, 2 and 1 lives. */
  function LedColour(level: int, lives: int): (c: Option<bv32>)
    ensures level == 0 ==> c == Some(Colour.Blue)
    ensures level != 0 ==> (c.Some? <==> 1 <= lives <= 3)
    ensures level != 0 && lives == 3 ==> c == Some(Colour.Green)
    ensures level != 0 && lives == 2 ==> c == Some(Colour.Yellow)
    ensures level != 0 && lives == 1 ==> c == Some(Colour.Red)
  {
    if level != 0 then
      if lives == 3 then Some(Colour.Green)
      else if lives == 2 then Some(Colour.Yellow)
      else if lives == 1 then Some(Colour.Red)
      else None
    else Some(Colour.Blue)
  }

  /** During a level the LED tells the number of lives exactly: different lives
      give different colours, and none of them is the menu's blue. */
  lemma LedShowsLives(level: int, a: int, b: int)
    requires level != 0 && 1 <= a <= 3 && 1 <= b <= 3
    ensures LedColour(level, a) != Some(Colour.Blue)
    ensures LedColour(level, a) == LedColour(level, b) <==> a == b
  {
  }

  /** The counters `calculate_stats` leaves: cleared when `reset` is non-zero
      and one of them is non-zero, otherwise as they were. */
  function ResetCounters(reset: int, right: int, wrong: int): (r: (int, int))
    ensures reset != 0 ==> r == (0, 0)
    ensures reset == 0 ==> r == (right, wrong)
  {
    if (right != 0 || wrong != 0) && reset != 0 then (0, 0) else (right, wrong)
  }

  /** The firmware's global game variables. */
  class GameState {
    var currentLevel: int
    var highestLevel: int
    var selectLevel: int
    var lives: int
    var wins: int
    var totalCorrectAnswers: int
    var rightInput: int
    var wrongInput: int
    var remaining: int
    /** Every colour word handed to the LED, oldest first. */
    var leds: seq<bv32>

    /** The ranges the game keeps its variables in. */
    ghost predicate Bounded()
      reads this
    {
      0 <= currentLevel <= 4 && 0 <= selectLevel <= 1 && 0 <= lives <= 3 && 0 <= remaining <= 5
      && wins >= 0 && rightInput >= 0 && wrongInput >= 0
    }

    /** The state at the start of a level: full lives, five answers to go, no answers counted. */
    ghost predicate AtLevelEntry()
      reads this
    {
      lives == 3 && remaining == 5 && rightInput == 0 && wrongInput == 0
    }

    /** The values the globals hold at power-up. */
    constructor ()
      ensures currentLevel == 0 && highestLevel == 0 && selectLevel == 0
      ensures lives == 3 && wins == 0 && totalCorrectAnswers == 0
      ensures rightInput == 0 && wrongInput == 0 && remaining == 5
      ensures leds == []
      ensures Bounded() && AtLevelEntry()
    {
      currentLevel, highestLevel, selectLevel := 0, 0, 0;
      lives := 3;
      wins, totalCorrectAnswers, rightInput, wrongInput := 0, 0, 0, 0;
      remaining := 5;
      leds := [];
    }

    /** `level_select_true`. */
    method LevelSelectTrue()
      modifies this`selectLevel
      ensures selectLevel == 1
    {
      selectLevel := 1;
    }

    /** `level_select_false`. */
    method LevelSelectFalse()
      modifies this`selectLevel
      ensures selectLevel == 0
    {
      selectLevel := 0;
    }

    /** `start_game`: lights the LED green and resets the per-level variables. */
    method StartGame()
      modifies this
      ensures rightInput == 0 && wrongInput == 0 && lives == 3 && remaining == 5
      ensures leds == old(leds) + [Colour.Green]
      ensures currentLevel == old(currentLevel) && highestLevel == old(highestLevel)
      ensures selectLevel == old(selectLevel) && wins == old(wins)
      ensures totalCorrectAnswers == old(totalCorrectAnswers)
      ensures AtLevelEntry() && (old(Bounded()) ==> Bounded())
      ensures currentLevel != 0 ==> LedColour(currentLevel, lives) == Some(leds[|leds| - 1])
    {
      leds := leds + [Colour.Green];
      rightInput := 0;
      lives := 3;
      remaining := 5;
      wrongInput := 0;
    }

    /** `select_difficulty`: sets the level named by the submitted code and
      leaves it as it was on invalid input. Its `while (true)` loop returns
      on the first pass, so it is the chain of tests of SelectedLevel. */
    method SelectDifficulty(input: string)
      modifies this`currentLevel
      ensures currentLevel == (match SelectedLevel(input) case Some(k) => k case None => old(currentLevel))
      ensures input == LevelOneCode ==> currentLevel == 1
      ensures input == LevelTwoCode ==> currentLevel == 2
      ensures input == LevelThreeCode ==> currentLevel == 3
      ensures currentLevel != 4 || old(currentLevel) == 4
      ensures old(Bounded()) ==> Bounded()
    {
      match SelectedLevel(input)
      case Some(k) => currentLevel := k;
      case None =>
    }

    /** `set_corrrect_led`: writes the colour for the current level and
      lives, or nothing; no game variable changes. */
    method SetCorrectLed()
      modifies this`leds
      ensures leds == old(leds) + (match LedColour(currentLevel, lives) case Some(c) => [c] case None => [])
      ensures Bounded() && (currentLevel == 0 || lives >= 1) ==> |leds| == |old(leds)| + 1
    {
      if currentLevel != 0 {
        if lives == 3 {
          leds := leds + [Colour.Green];
        } else if lives == 2 {
          leds := leds + [Colour.Yellow];
        } else if lives == 1 {
          leds := leds + [Colour.Red];
        }
      } else {
        leds := leds + [Colour.Blue];
      }
    }

    /** `set_red_on`. */
    method SetRedOn()
      modifies this`leds
      ensures leds == old(leds) + [Colour.Red]
    {
      leds := leds + [Colour.Red];
    }

    /** The counter reset of `calculate_stats`; the statistics it prints are
      not modelled. */
    method CalculateStats(reset: int)
      modifies this`rightInput, this`wrongInput
      ensures (rightInput, wrongInput) == ResetCounters(reset, old(rightInput), old(wrongInput))
      ensures reset != 0 ==> rightInput == 0 && wrongInput == 0
      ensures reset == 0 ==> rightInput == old(rightInput) && wrongInput == old(wrongInput)
      ensures old(Bounded()) ==> Bounded()
    {
      if rightInput != 0 || wrongInput != 0 {
        if reset != 0 {
          rightInput := 0;
          wrongInput := 0;
        }
      }
    }

    /** `game_finished`: clears the counters, shows red after a loss and, when
      the player answers the replay prompt with the level-1 code, starts a
      new game. */
    method GameFinished(input: string)
      modifies this
      ensures rightInput == 0 && wrongInput == 0
      ensures leds == old(leds) + (if old(lives) == 0 then [Colour.Red] else [])
                                + (if input == LevelOneCode then [Colour.Green] else [])
      ensures input == LevelOneCode ==> lives == 3 && remaining == 5
      ensures input != LevelOneCode ==> lives == old(lives) && remaining == old(remaining)
      ensures currentLevel == old(currentLevel) && highestLevel == old(highestLevel)
      ensures selectLevel == old(selectLevel) && wins == old(wins)
      ensures totalCorrectAnswers == old(totalCorrectAnswers)
      ensures input == LevelOneCode ==> AtLevelEntry()
      ensures old(Bounded()) ==> Bounded()
    {
      CalculateStats(1);
      if lives == 0 {
        SetRedOn();
      }
      if input == LevelOneCode {
        StartGame();
      }
    }
  }
}
