# Morse-code trainer: game bookkeeping

A model of the C half of a Raspberry Pi Pico Morse-code training game
(`assign02.c`). The player keys dots and dashes on one button. An assembly
routine turns the presses into a code string. The C code keeps the game's
global variables and does the following:

- fills the 36-entry letter dictionary;
- maps a submitted code to a level;
- draws a bounded random index;
- resets the per-level variables;
- chooses the colour of the single WS2812 RGB LED.

The model has three modules:

- `Colour` (`colour.dfy`): `urgb_u32`, the packing of red, green and blue
  bytes into the LED's GRB word, and the four colours the game uses.
- `Morse` (`morse.dfy`): the dictionary as a value (`Itu`, A–Z then 0–9 with
  their ITU-R M.1677-1 codes). `Table` is the global fixed-size array, and
  `Init` fills it the way `morse_init` does.
- `Game` (`game.dfy`): `GameState`, a class whose fields are the global game
  variables. Its methods are `start_game`, `select_difficulty`,
  `set_corrrect_led`, `set_red_on`, the counter reset of `calculate_stats`
  and `game_finished`. Pure functions give the level decoder, `select_random`,
  the LED colour choice and the counter reset, and lemmas relate them.

The LED driver is modelled by the field `GameState.leds`. It logs every
colour word the firmware hands to `put_pixel`. The code the player submitted
(`currentInput`, filled by the assembly routine) is the parameter `input`.
The value of `rand()` is the parameter `rnd`.

Where the firmware's own prompts and its code disagree, the model follows
the code:

- The level menu (assign02.c:318) offers `....-` for level 4. The fourth
  test of `select_difficulty` repeats `...--`, so no code selects level 4
  (see Findings).
- The replay prompt (assign02.c:398-399) offers `..---` to exit.
  `game_finished` itself acts only on `.----` (a new game). Any other code
  leaves lives and remaining as they were; what follows is up to the
  assembly routine.

## Model

| member | source | states |
|---|---|---|
| `Colour.Urgb` | assign02.c:41-46 | blue is in bits 0–7, red in bits 8–15 and green in bits 16–23 of the packed word; bits 24–31 are zero |
| `Colour.UnpackPack` | assign02.c:41-46 | shift-and-mask returns each of the three packed bytes unchanged |
| `Colour.PackUnpack` | assign02.c:41-46 | every word with a clear top byte is the packing of its own three bytes, so packing is a bijection onto those words |
| `Colour.ColoursDistinct` | assign02.c:324-356 | green (0,3F,0), yellow (3F,3F,0), red (3F,0,0) and blue (0,0,3F) are four different words |
| `Morse.Itu` | assign02.c:130-206 | the dictionary `morse_init` builds has exactly 36 entries |
| `Morse.TableShape` | assign02.c:133-205 | 'A'–'Z' are at indices 0–25 and '0'–'9' at 26–35; every code is 1 to 5 symbols, each '.' or '-' |
| `Morse.TableCodesDistinct` | assign02.c:170-205 | no two of the 36 codes are equal, so a code names at most one character |
| `Morse.Table.constructor` | assign02.c:121-128 | the global array has 36 entries, all zero before `morse_init` |
| `Morse.Table.Init` | assign02.c:130-206 | after `morse_init` the array holds exactly the dictionary, in place; it is shaped as above and its codes are distinct |
| `Game.SelectedLevel` | assign02.c:230-260 | a level is assigned exactly for `.----`, `..---` and `...--`, and it is always in 1–3 |
| `Game.LevelFourUnreachable` | assign02.c:244-253 | no submitted code selects level 4, because the fourth test repeats the third |
| `Game.MenuLevelFourRejected` | assign02.c:249-257 | the level-4 code the menu prints (`....-`) is treated as invalid input |
| `Game.SelectionCodesAreDigits` | assign02.c:230-260 | a code selects level k exactly when k is 1–3 and the code is the table code of digit k |
| `Game.IntendedLevel` | assign02.c:311-320 | the menu's selection: a level, when one is chosen, is in 1–4 |
| `Game.IntendedLevelMatchesMenu` | assign02.c:315-318 | in the menu's selection, the code of digit k chooses level k for each k in 1–4, and no other code chooses a level |
| `Game.SelectRandom` | assign02.c:262-267 | for a non-negative random value: `high` when `low > high`, otherwise a value in [low, high] |
| `Game.SelectRandomCoversRange` | assign02.c:262-267 | every value in a non-empty [low, high] is drawn for some random value |
| `Game.LedColour` | assign02.c:324-351 | blue on the menu (level 0); during a level, green for 3 lives, yellow for 2, red for 1, and no write for any other value |
| `Game.LedShowsLives` | assign02.c:324-351 | during a level, different lives in 1–3 give different colours, and none of them is blue |
| `Game.ResetCounters` | assign02.c:374-387 | a non-zero `reset` leaves both counters zero, and a zero `reset` leaves them as they were (the non-zero test only skips clearing counters that are already zero) |
| `Game.GameState.constructor` | assign02.c:102-112 | the power-up values: level 0, lives 3, remaining 5, all counters 0 |
| `Game.GameState.LevelSelectTrue` | assign02.c:220-223 | sets `selectLevel` to 1 and nothing else |
| `Game.GameState.LevelSelectFalse` | assign02.c:225-228 | sets `selectLevel` to 0 and nothing else |
| `Game.GameState.StartGame` | assign02.c:209-216 | writes green; sets rightInput and wrongInput to 0, lives to 3 and remaining to 5; level, wins and selectLevel are unchanged; green is also the colour `set_corrrect_led` gives for 3 lives |
| `Game.GameState.SelectDifficulty` | assign02.c:230-260 | sets the level for the three accepted codes and leaves it unchanged otherwise; it never sets level 4 |
| `Game.GameState.SetCorrectLed` | assign02.c:324-351 | appends the colour `LedColour` chooses, or nothing, and changes no game variable; with the variables in their ranges and at least one life (or on the menu), exactly one colour is written |
| `Game.GameState.SetRedOn` | assign02.c:353-356 | appends red to the LED log |
| `Game.GameState.CalculateStats` | assign02.c:365-389 | only the two counters can change: they are cleared when `reset` is non-zero and unchanged when it is zero; wins and lives are untouched |
| `Game.GameState.GameFinished` | assign02.c:391-406 | clears the counters; writes red if lives is 0; restarts (lives 3, remaining 5, green) exactly when the input is `.----`; otherwise lives and remaining are unchanged |

## Left out

- `put_pixel` (assign02.c:26-29) is output through the PIO state machine. The model records the word passed to it; the `<< 8` shift into the FIFO is not modelled.
- The GPIO wrappers, IRQ arming, watchdog and timer (assign02.c:55-98) are thin calls into the Pico SDK. `get_time_difference` is a bare subtraction.
- `main_asm` (declared at assign02.c:50) is not part of this model. It holds the press timing, the filling of `currentInput`, `i`, `tmpIndex` and `inputComplete`, and the matching of answers. Inside `game_finished`, its effect is the `input` parameter; anything else it changes while waiting for that input is not modelled.
- `add_input` (assign02.c:273-276) is an empty stub.
- Console output: `welcome`, `instructions`, `difficulty_level_inputs`, the statistics lines, the prompts in `game_finished`, and the "Error: Invalid input." message.
- The accuracy percentages of `calculate_stats` (assign02.c:371, 376) are floating point and only printed. Line 371 divides by zero when no attempts were made. Line 376 divides integers before scaling, so it gives 0 or 100.
- `rand()` is an external pseudo-random source. Its value is the parameter `rnd`.
- `main` (assign02.c:417-436) only initialises the hardware and calls the routines above.
- `Morse.Table.Init`: `morse_init` makes 72 separate stores, all letters and then all codes. The model makes one aggregate in-place update of the array to the same final contents. The intermediate states are not observable by any other code.
- `Game.SelectRandom`: does not model the C `int` overflow of `high - low + 1` for ranges wider than `INT_MAX`; the model's integers are unbounded.
- The game variables are C `int`s. Every model operation stores only small constants in them, so 32-bit wrap-around cannot arise here.
- The per-round play, the checks that a level is won or lost, and the win streak run in the assembly routine and are not part of this model.
- Nothing in this file writes `highestLevel` or `totalCorrectAnswers`. They are kept as fields, and every modelled method leaves them unchanged.

## Findings

| source | as written | input that shows it | evidently intended | confidence | as-written member | corrected member |
|---|---|---|---|---|---|---|
| assign02.c:249 | the fourth test of `select_difficulty` compares with `"...--"` again, so its `currentLevel = 4` is dead code | `....-`, the level-4 code the menu prints at assign02.c:318, is reported as invalid input | compare with `"....-"`, the code of digit 4, to select level 4 | high (not executed) | `Game.MenuLevelFourRejected` (about `Game.SelectedLevel`) | `Game.IntendedLevelMatchesMenu` (about `Game.IntendedLevel`) |

`Game.GameState.SelectDifficulty` keeps the firmware's behaviour: it selects
through `Game.SelectedLevel`, so the model describes the game as it runs.
`Game.IntendedLevel` gives the corrected decoder, proved against the menu.
