# Hangman rules engine, modelled in Dafny

This project models the core of a pygame hangman game, in four modules.

- `Core` (core.py) is the rules engine. The Python module keeps one round in module globals that every function updates in place: the secret `current_word`, the masked `word_state`, `guessed_letters`, `life_remaining`, the countdown `timeout` and the `timer` handle. Here they are the fields of one `Core.Session` object. A pending timer is the flag `armed`, and cancelling the timer clears it. Each method of `Session` is specified by a pure function on `Core.Globals`, the value of all those fields together. The engine's properties are proved as lemmas about those functions:
  - the mask that `setup` builds;
  - how a guess rebuilds `word_state` and charges lives;
  - the countdown state machine;
  - the reset done by `game_over`.
- `Components` (components.py) holds the widget logic that is not drawing:
  - the press handling of the menu buttons;
  - the one-shot letter buttons and their fade-in;
  - the tile arithmetic of the letter sheet and the hangman sheet.

  A sprite is represented by the rectangle of the sheet it is cut from.
- `App` (main.py) is the `Game` controller: a three-screen machine (menu, game, game over) that drives the engine. It decides win and loss after each guess.
- `Builtins` holds `None` and the ASCII part of Python's `str.upper`.

The background `threading.Timer` becomes an explicit step, `Core.Session.Tick`: one second of wall-clock time passing. If a timer is pending it fires and runs `countdown`; otherwise nothing happens. An uninterrupted countdown therefore costs exactly one life (`Core.CountdownCostsOneLife`). Every guess restarts the countdown, which leaves 14 on the clock with a timer pending.

The model keeps the code's behaviour where it differs from what a careful design would do:
- The guess is compared with the upper-cased word but is not upper-cased itself.
- A repeated guess is recorded again and charged again.
- Lives have no floor at zero.
- `setup` masks the word only when `word_state` is empty.
- `game_over` does not cancel the timer. When a timer is pending at the reset, the next second still fires it. The reset clock is at 0, so that second takes a life: the fresh state has 5 lives and the clock reads -1 (`Core.StaleTimerAfterGameOver`).
- A loss is noticed only after a guess. A countdown that takes the last life leaves the game screen showing until the next guess or Escape.

## Model

| member | source | states |
|---|---|---|
| `Builtins.UpperChar` | core.py:94 | a lower-case ASCII letter becomes its own upper-case partner and every other character is kept. So the result is never lower-case, it is an upper-case letter exactly when the input is a letter of either case, and only a space gives a space and only `_` gives `_` |
| `Builtins.Upper` | core.py:98 | `str.upper` keeps the length, turns each lower-case ASCII letter into its partner 32 codes below, and keeps every other character |
| `Core.Mask` | core.py:42-48 | the mask has the word's length, holds `' '` exactly where the word has a space, and holds `'_'` everywhere else |
| `Core.Reveal` | core.py:97-104 | the rebuilt `word_state` has the word's length; a position shows the upper-cased character if that character was guessed, otherwise `' '` for a space and `'_'` for anything else |
| `Core.MaskIsRevealOfNoGuess` | core.py:42-48 | the mask `setup` builds equals the state a guess would rebuild with no letters guessed |
| `Core.RevealDependsOnLetterSet` | core.py:98-104 | `word_state` depends only on which letters were guessed, not on their order or repetition |
| `Core.RevealSolved` | core.py:98-104 | no `'_'` is left if and only if every character of the upper-cased word is a space or a guessed letter, and none is `'_'` |
| `Core.RevealGrows` | core.py:98-100 | a position showing its letter keeps showing it when more letters are guessed |
| `Core.StartTimerState` | core.py:115-125 | `start_timer(s)` leaves the clock at `s - 1`; a timer is pending iff `s >= 2`; a life is lost iff `s < 2`; nothing else changes |
| `Core.SetupEffect` | core.py:26-48 | `setup` leaves 14 on the clock with a timer pending. It never touches lives, guesses, `wrong_letters` or `mistakes`. "basic" draws from the loaded word pool and "intermediate" from the loaded phrase pool; any other mode keeps the word. A non-empty `word_state` is kept; an empty one becomes the mask of the new word |
| `Core.GuessEffect` | core.py:77-104 | a guess appends the letter exactly once, costs exactly one life iff the letter is not in the upper-cased word, leaves 14 on the clock with a timer pending, and rebuilds `word_state` position by position from the word and all guesses |
| `Core.TicksWhenDisarmed` | core.py:128-140 | with no pending timer, time passing changes nothing |
| `Core.TicksWhenArmed` | core.py:128-140 | a pending timer with `t` seconds on the clock counts down one per second; on the `t`-th second it costs exactly one life and stops |
| `Core.CountdownCostsOneLife` | core.py:115-140 | after `start_timer(s)` and `n` uninterrupted seconds, the clock and timer state are given exactly; the countdown costs one life, once, and nothing after |
| `Core.StaleTimerAfterGameOver` | core.py:143-154 | a timer still pending at `game_over` fires after the reset and costs a life: 5 lives and the clock at -1 |
| `Core.MissesPermutation` | core.py:93-95 | the lives a run of guesses costs do not depend on the order of the guesses |
| `Core.GuessAllEffect` | core.py:77-104 | after a run of guesses, every guess is recorded in order and each miss costs one life. The clock shows 14 with a timer pending, and `word_state` is rebuilt from all letters guessed |
| `Core.GuessOrderIrrelevant` | core.py:89-104 | the same guesses in any order give the same `word_state`, lives and clock; only the order of `guessed_letters` differs |
| `Core.Session.constructor` | core.py:6-23 | the globals at import: six lives, nothing drawn or guessed, clock at 0, no timer |
| `Core.Session.ChooseWord` | core.py:51-61 | an empty word pool is filled from the file's lines and a filled one is kept; the result is the pool's entry at the random index |
| `Core.Session.ChoosePhrase` | core.py:64-74 | the same for the phrase pool |
| `Core.Session.Setup` | core.py:26-48 | the new globals are `SetupState` of the old ones; the mask is built by the append loop |
| `Core.Session.MaskWord` | core.py:43-48 | the loop that fills an empty `word_state` leaves exactly the mask of the word |
| `Core.Session.GuessLetters` | core.py:77-104 | the new globals are `GuessState` of the old ones; `word_state` is rebuilt by the append loop |
| `Core.Session.RevealWord` | core.py:98-104 | the loop that refills the emptied `word_state` leaves exactly the state rebuilt from the upper-cased word and all guesses |
| `Core.Session.ReduceLife` | core.py:107-112 | one life less, with no floor |
| `Core.Session.StartTimer` | core.py:115-125 | the new globals are `StartTimerState` of the old ones |
| `Core.Session.Countdown` | core.py:128-140 | one second off the clock, then a re-armed timer if time is left, else one life lost |
| `Core.Session.Tick` | core.py:137-138 | a pending timer fires and runs `countdown`; with no pending timer nothing changes |
| `Core.Session.GameOver` | core.py:143-154 | clock 0, no guesses, no mistakes, empty word and `word_state`, six lives; pools, `wrong_letters` and the timer untouched |
| `Core.Session.ResetTimer` | core.py:157-161 | same effect as `start_timer` |
| `Components.RectAtCenter` | components.py:60 | a rectangle placed by its centre keeps its size, has its corner half the size (rounded down) up and left of the centre, and contains the centre when non-empty |
| `Components.Button.constructor` | components.py:18-31 | a new menu button is not clicked, and its rectangle has its image's size, centred at the given position |
| `Components.Button.HandleEvent` | components.py:38-46 | returns true exactly for a left press inside the button, which marks it clicked; a left release clears the mark |
| `Components.DisabledStaysDisabled` | components.py:81-82 | a disabled letter button ignores every event and changes no flag |
| `Components.LetterAtMostOnce` | components.py:79-91 | over any sequence of events, a letter button hands out its own letter and nothing else, at most once (never if it starts disabled), and is disabled once it has |
| `Components.FadeIn` | components.py:67-68 | the alpha rises by 8, capped at 255, and stays in [0, 255] without decreasing |
| `Components.FadeFromZero` | components.py:63-68 | after `n` updates from 0 the alpha is `min(255, 8n)`, never decreasing |
| `Components.LetterButton.constructor` | components.py:55-63 | a new letter button is enabled, not clicked, alpha 0, and its rectangle has its surface's size, centred at the given position |
| `Components.LetterButton.HandleEvent` | components.py:79-91 | the new flags and the result are `LetterResponse` of the old flags and the event |
| `Components.LetterButton.Update` | components.py:65-68 | the alpha takes one fade-in step |
| `Components.AlphabetCodes` | components.py:106 | the alphabet is the 26 consecutive codes from `A` |
| `Components.TileCellInverse` | components.py:108-110 | the tile's column is below the column count, and column plus row times columns gives back the index |
| `Components.TileCellsDistinct` | components.py:108-110 | distinct indices get distinct tiles |
| `Components.TilesDisjoint` | components.py:103-121 | tiles of distinct letters do not overlap when tiles are non-empty |
| `Components.TileInSheet` | components.py:103-113 | on a sheet of `rows` rows and `columns` columns, every tile index below `columns * rows` lands in a row below `rows` and its tile lies inside the sheet |
| `Components.LetterTileInSheet` | components.py:102-110 | each of the 26 letters lands in a row below 4 of the 8-column grid, and its tile lies inside the sheet |
| `Components.FrameTileInSheet` | components.py:136-142 | each of the 8 frames lands in a row below 2 of the 4-column grid, and its tile lies inside the sheet |
| `Components.LetterTilesContents` | components.py:106-121 | after the first `n` letters of the alphabet are cut, the keys are exactly those letters, each mapped to the tile of its place |
| `Components.ScrabbleLetterSheet.constructor` | components.py:95-98 | a loaded letter sheet holds exactly the 26 upper-case letters, each with its tile |
| `Components.ScrabbleLetterSheet.LoadLetters` | components.py:100-121 | the new map is the old one with every letter A to Z set to its tile, the `i`-th in column `i % 8`, row `i // 8`; other keys are kept |
| `Components.ScrabbleLetterSheet.GetLetter` | components.py:123-125 | a lower-case ASCII letter finds what is stored under its upper-case partner; any other character finds what is stored under itself; `None` when nothing is |
| `Components.GetLetterFindsTile` | components.py:123-125 | on a loaded sheet, a letter of either case finds the tile of its alphabet position |
| `Components.HangmanSprites.constructor` | components.py:129-132 | a loaded hangman sheet holds eight frames, frame `i` from column `i % 4`, row `i // 4` |
| `Components.HangmanSprites.LoadFrames` | components.py:134-153 | eight frames are appended in order, each cut from its tile |
| `Components.HangmanSprites.GetFrame` | components.py:155-158 | `None` iff there are no frames. Otherwise the frame at `min(mistakes, len - 1)`, with a negative index read from the end as Python does |
| `App.GridPrefixAt` | main.py:75-87 | the `k`-th button added is the `k`-th letter, centred at column `k % 5`, row `k // 5`, with the `k`-th tile |
| `App.MenuButtonsApart` | main.py:42-55 | with a button image at most 300 pixels wide, the Basic and Intermediate buttons, centred 150 pixels either side of the middle of the 1200 by 700 screen, share no point, so one press selects at most one mode |
| `App.SlotClickable` | main.py:75-87 | on a sheet with non-empty tiles, a click at the centre of any letter button lands inside that button |
| `App.LetterGridDistinct` | main.py:75-80 | the letter grid holds each letter once, and no two buttons share a centre |
| `App.GuessOutcome` | main.py:109-125 | after a guess, the copied `word_state` and lives match the engine's. The round is won iff every character is a space or a guessed letter and lives remain: engine reset, menu, no mistakes. It is lost iff no lives remain: engine reset, game-over screen. Never both; otherwise the screen stays |
| `App.EscapeResets` | main.py:128-133 | Escape from any screen gives the menu, no mistakes, and a reset engine with six lives |
| `App.MenuStartsRound` | main.py:91-105 | from the menu, a mode button sets the engine up in that mode and shows the game screen with the letter grid; after a reset the new word is masked |
| `App.ScreenTransitions` | main.py:89-149 | the game-over screen moves only to the menu, and only on Escape. The menu moves only when a mode button is pressed. `update` never changes the screen |
| `App.StepsKeepConsistent` | main.py:146 | every event, every frame update and every second of countdown keeps the engine at six lives or fewer, so the mistakes shown are never negative |
| `App.Game.constructor` | main.py:20-61 | a new game shows the menu with no letter buttons, and copies the engine's counters |
| `App.Game.CreateLetterButtons` | main.py:63-87 | one button per letter A to Z, the `i`-th at column `i % 5`, row `i // 5` of the grid, with the letter's tile |
| `App.Game.HandleEvents` | main.py:89-133 | the new fields and engine globals are `HandleEventsStep` of the old ones |
| `App.Game.StartRound` | main.py:93-105 | the engine is set up in the mode; the game screen shows with fresh letter buttons and the transition timer at 0 |
| `App.Game.TakeLetter` | main.py:109-125 | the new fields and engine globals are `AfterGuess` of the old ones |
| `App.Game.ReturnToMenu` | main.py:128-133 | the new fields and engine globals are `AfterEscape` of the old ones |
| `App.Game.Update` | main.py:135-149 | the new fields are `UpdateStep` of the old ones; in the game screen the mistakes are six minus the engine's lives |
| `App.Game.HangmanFrame` | main.py:181-186 | the frame shown is the one at index `mistakes`, or the last frame once the mistakes reach it; the index is never negative |

## Left out

- Real time and threads. The model does not cover `threading.Timer`, its one-second scheduling, or races between the timer thread and a guess. A pending timer is the `armed` flag, and each second is one sequential `Tick` between operations.
- Files and randomness. Reading the word and phrase files (`open`, `strip`) is not modelled: their lines are parameters. `random.randrange` is not modelled either: the chosen index `pick` is a parameter. An empty pool makes `randrange` raise; this is a precondition here.
- `Components.HangmanSprites.GetFrame`: requires `mistakes` to be at least `-len(frames)` when there are frames. Below that, Python's indexing raises `IndexError`, which the model does not cover; the only caller passes a mistake count that is never negative.
- `Builtins.UpperChar`: covers only ASCII; Python's Unicode case mapping (including changes of length) is not modelled.
- Multi-character guesses. A guess is one character. Python's `in` on a longer string is a substring test, which the model does not cover.
- Drawing. pygame display, fonts, images, surfaces and every `draw` method are not modelled. Neither are `Underscores`, `GameOverScreen`, `Countdown`, `Button.update`'s image choice or the greying of disabled letters. The frame loop is left out too, including its `timer.cancel()` on quit.
- Event dispatch in `App`. A pygame event reaches `Game.handle_events` as an `Input`: a menu button's press, a letter a letter button handed out, or Escape. The loop over the letter-button sprites is not modelled: the one-shot behaviour of a single button is proved in `Components` instead. Two more cases are left out:
  - one event reaching two overlapping letter buttons, giving two guesses in one call, the second possibly after a win;
  - one event reaching both menu buttons.
- Button objects in `App`. `Game` holds the letter buttons as layout slots (letter, centre, tile), not as sprite objects with their own flags.
- Aliasing. `Game.word_state` and the engine's `word_state` can be one Python list, which `setup` appends to in place. The model copies values; `update` and `handle_events` re-copy them anyway.
- `Game.mode`, which is set to `None` and never assigned.
- `Game.timeout` holds the text `str(core.timeout)`; the model keeps the integer it is made from.
- `print` calls, and the stray `test_setup_intermediate` function at the top of components.py, which refers to a module it does not import.
