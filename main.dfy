/** The screen controller of the game (main.py): class `Game`, a three-screen
    machine (menu, game, game over) that drives the rules engine.

    pygame's event queue is abstracted to `Input`: which menu button reported a
    press, which letter a letter button handed out, or the Escape key.  The
    fields of `Game` are specified, like the engine's, by pure step functions on
    their value (`View`) together with the engine's globals. */
module App {
  import opened Builtins
  import Core
  import Components

  const SCREEN_WIDTH := 1200
  const SCREEN_HEIGHT := 700

  /** Centres of the two menu buttons, which share one image: Basic 150 pixels left of
      the middle of the screen, Intermediate 150 pixels right of it. */
  const BASIC_CENTRE_X := SCREEN_WIDTH / 2 - 150
  const INTERMEDIATE_CENTRE_X := SCREEN_WIDTH / 2 + 150
  const MENU_CENTRE_Y := SCREEN_HEIGHT / 2

  /** With a button image at most 300 pixels wide, no point lies on both menu buttons,
      so one press never reports both modes and `handle_events` runs `setup` at most
      once per press, which is what `Input` assumes. */
  lemma MenuButtonsApart(width: nat, height: nat, x: int, y: int)
    requires width <= 300
    ensures !(Components.RectAtCenter(BASIC_CENTRE_X, MENU_CENTRE_Y, width, height).CollidePoint(x, y)
              && Components.RectAtCenter(INTERMEDIATE_CENTRE_X, MENU_CENTRE_Y, width, height).CollidePoint(x, y))
  {
  }

  /** Layout of the letter grid: five columns, 70 pixels apart, from (800, 120). */
  const GRID_LEFT := SCREEN_WIDTH - 400
  const GRID_TOP := 120
  const GRID_COLUMNS := 5
  const GRID_SPACING := 70

  /** What an event amounts to for `handle_events`: the Basic or the Intermediate menu
      button reported a press, a letter button handed out its letter, the Escape key
      went down, or nothing of the kind happened. */
  datatype Input = BasicPressed | IntermediatePressed | LetterClicked(letter: char) | Escape | Idle

  /** A letter button as placed by `create_letter_buttons`: its letter, the centre it
      is drawn at and the sheet tile it shows. */
  datatype Slot = Slot(letter: char, x: int, y: int, tile: Components.Rect) {
    /** Where the letter button made for this slot sits: its tile's size, centred at
        the slot's centre. */
    function Area(): Components.Rect {
      Components.RectAtCenter(x, y, tile.width, tile.height)
    }
  }

  /** The centre of the `i`-th letter button: column `i % 5`, row `i // 5`. */
  function SlotX(i: nat): int {
    GRID_LEFT + Components.TileCell(i, GRID_COLUMNS).0 * GRID_SPACING
  }

  function SlotY(i: nat): int {
    GRID_TOP + Components.TileCell(i, GRID_COLUMNS).1 * GRID_SPACING
  }

  /** The `i`-th letter button on a letter sheet of the given size. */
  function GridSlot(i: nat, sheetWidth: nat, sheetHeight: nat): Slot
    requires i < |Components.ASCII_UPPERCASE|
  {
    Slot(Components.ASCII_UPPERCASE[i], SlotX(i), SlotY(i), Components.LetterTile(i, sheetWidth, sheetHeight))
  }

  /** The first `n` letter buttons, in the order `create_letter_buttons` adds them. */
  function GridPrefix(n: nat, sheetWidth: nat, sheetHeight: nat): (grid: seq<Slot>)
    requires n <= |Components.ASCII_UPPERCASE|
    ensures |grid| == n
  {
    if n == 0 then [] else GridPrefix(n - 1, sheetWidth, sheetHeight) + [GridSlot(n - 1, sheetWidth, sheetHeight)]
  }

  /** The `k`-th button of any prefix is the `k`-th slot of the grid. */
  lemma {:induction false} GridPrefixAt(n: nat, sheetWidth: nat, sheetHeight: nat, k: nat)
    requires k < n <= |Components.ASCII_UPPERCASE|
    ensures GridPrefix(n, sheetWidth, sheetHeight)[k] == GridSlot(k, sheetWidth, sheetHeight)
  {
    if k < n - 1 {
      GridPrefixAt(n - 1, sheetWidth, sheetHeight, k);
    }
  }

  /** The 26 letter buttons, A to Z, on a letter sheet of the given size. */
  function LetterGrid(sheetWidth: nat, sheetHeight: nat): seq<Slot> {
    GridPrefix(|Components.ASCII_UPPERCASE|, sheetWidth, sheetHeight)
  }

  /** The grid holds each letter of the alphabet once, and no two buttons share a centre. */
  lemma {:induction false} LetterGridDistinct(sheetWidth: nat, sheetHeight: nat, i: nat, j: nat)
    requires i < j < |Components.ASCII_UPPERCASE|
    ensures LetterGrid(sheetWidth, sheetHeight)[i].letter != LetterGrid(sheetWidth, sheetHeight)[j].letter
    ensures (LetterGrid(sheetWidth, sheetHeight)[i].x, LetterGrid(sheetWidth, sheetHeight)[i].y)
            != (LetterGrid(sheetWidth, sheetHeight)[j].x, LetterGrid(sheetWidth, sheetHeight)[j].y)
  {
    GridPrefixAt(|Components.ASCII_UPPERCASE|, sheetWidth, sheetHeight, i);
    GridPrefixAt(|Components.ASCII_UPPERCASE|, sheetWidth, sheetHeight, j);
    Components.AlphabetCodes();
    Components.TileCellsDistinct(i, j, GRID_COLUMNS);
    var ci, cj := Components.TileCell(i, GRID_COLUMNS), Components.TileCell(j, GRID_COLUMNS);
    if ci.0 != cj.0 {
      assert SlotX(i) != SlotX(j);
    } else {
      assert SlotY(i) != SlotY(j);
    }
  }

  /** On a sheet large enough for non-empty tiles, a click at the centre of any letter
      button lands on that button. */
  lemma SlotClickable(sheetWidth: nat, sheetHeight: nat, i: nat)
    requires sheetWidth >= Components.LETTER_COLUMNS && sheetHeight >= Components.LETTER_ROWS
    requires i < |Components.ASCII_UPPERCASE|
    ensures var s := LetterGrid(sheetWidth, sheetHeight)[i]; s.Area().CollidePoint(s.x, s.y)
  {
    GridPrefixAt(|Components.ASCII_UPPERCASE|, sheetWidth, sheetHeight, i);
  }

  // ----------------------------------------------------------------------------
  // The controller's fields as one value, and what each operation does to them

  /** The fields of `Game` that change: the screen, the frame counter, the copies of
      the engine's counters it displays, and the letter buttons. */
  datatype View = View(
    state: Core.State,
    transitionTimer: int,
    mistakes: int,
    wordState: seq<char>,
    lifeRemaining: int,
    timeout: int,
    letterButtons: seq<Slot>)

  /** A letter handed out in the game screen: guess it, copy the engine's counters, then
      check for a win (no placeholder left and lives left: reset, back to the menu,
      six lives) and then for a loss (no lives left: reset, game-over screen). */
  function AfterGuess(v: View, g: Core.Globals, letter: char): (View, Core.Globals) {
    var h := Core.GuessState(g, letter);
    var v1 := v.(wordState := h.wordState, lifeRemaining := h.lifeRemaining);
    var (v2, h2) :=
      if '_' !in v1.wordState && v1.lifeRemaining > 0 then
        (v1.(state := Core.Menu, letterButtons := [], mistakes := 0),
         Core.GameOverState(h).(lifeRemaining := Core.START_LIVES))
      else (v1, h);
    if v2.lifeRemaining <= 0 then (v2.(state := Core.GameOver), Core.GameOverState(h2)) else (v2, h2)
  }

  /** The Escape key: reset the engine, back to the menu, no mistakes, six lives. */
  function AfterEscape(v: View, g: Core.Globals): (View, Core.Globals) {
    (v.(state := Core.Menu, letterButtons := [], mistakes := 0),
     Core.GameOverState(g).(lifeRemaining := Core.START_LIVES))
  }

  /** What `handle_events` needs: a word or phrase to draw when a menu button starts a round. */
  predicate CanHandle(v: View, g: Core.Globals, input: Input, wordFile: seq<string>, phraseFile: seq<string>, pick: nat) {
    && (v.state == Core.Menu && input == BasicPressed ==> Core.CanSetup(g, "basic", wordFile, phraseFile, pick))
    && (v.state == Core.Menu && input == IntermediatePressed ==> Core.CanSetup(g, "intermediate", wordFile, phraseFile, pick))
  }

  /** `handle_events`: the menu starts a round, the game screen takes a guess, and
      Escape resets from any screen. */
  function HandleEventsStep(v: View, g: Core.Globals, input: Input, wordFile: seq<string>, phraseFile: seq<string>,
                            pick: nat, grid: seq<Slot>): (View, Core.Globals)
    requires CanHandle(v, g, input, wordFile, phraseFile, pick)
  {
    var (v1, g1) :=
      if v.state == Core.Menu && input == BasicPressed then
        (v.(state := Core.Game, letterButtons := grid, transitionTimer := 0),
         Core.SetupState(g, "basic", wordFile, phraseFile, pick))
      else if v.state == Core.Menu && input == IntermediatePressed then
        (v.(state := Core.Game, letterButtons := grid, transitionTimer := 0),
         Core.SetupState(g, "intermediate", wordFile, phraseFile, pick))
      else if v.state == Core.Game && input.LetterClicked? then
        AfterGuess(v, g, input.letter)
      else (v, g);
    if input == Escape then AfterEscape(v1, g1) else (v1, g1)
  }

  /** `update`, once per frame: in the game screen, copy the engine's state and derive
      the mistakes from the lives; the screen itself never changes here. */
  function UpdateStep(v: View, g: Core.Globals): View {
    if v.state == Core.Game then
      v.(wordState := g.wordState, transitionTimer := v.transitionTimer + 1,
         mistakes := Core.START_LIVES - g.lifeRemaining, timeout := g.timeout)
    else v
  }

  /** The result of a guess in the game screen.  The round is won exactly when every
      character of the upper-cased word is a space or a guessed letter (and none is a
      `'_'`) with lives left, which resets the engine and returns to the menu; it is
      lost exactly when the guess leaves no lives, which resets the engine and shows
      the game-over screen; never both.  Otherwise the engine keeps the guess and the
      screen stays. */
  lemma GuessOutcome(v: View, g: Core.Globals, letter: char)
    requires v.state == Core.Game
    ensures var h := Core.GuessState(g, letter);
            var upper := Upper(g.currentWord);
            var solved := forall i :: 0 <= i < |upper| ==>
                            upper[i] != '_' && (upper[i] == ' ' || upper[i] in g.guessedLetters + [letter]);
            var r := AfterGuess(v, g, letter);
            && r.0.wordState == h.wordState && r.0.lifeRemaining == h.lifeRemaining
            && (r.0.state == Core.Menu <==> solved && h.lifeRemaining > 0)
            && (r.0.state == Core.GameOver <==> h.lifeRemaining <= 0)
            && (r.0.state != Core.Game ==> r.1 == Core.GameOverState(h) && r.1.lifeRemaining == Core.START_LIVES)
            && (r.0.state == Core.Game ==> r.1 == h)
            && (r.0.state == Core.Menu ==> r.0.mistakes == 0 && r.0.letterButtons == [])
  {
    Core.RevealSolved(Upper(g.currentWord), g.guessedLetters + [letter]);
  }

  /** Escape always ends on the menu with a reset engine, six lives and no mistakes,
      whatever the screen and whatever the engine held. */
  lemma EscapeResets(v: View, g: Core.Globals, wordFile: seq<string>, phraseFile: seq<string>, pick: nat, grid: seq<Slot>)
    ensures var r := HandleEventsStep(v, g, Escape, wordFile, phraseFile, pick, grid);
            && r.0.state == Core.Menu && r.0.mistakes == 0 && r.0.letterButtons == []
            && r.1 == Core.GameOverState(g)
            && r.1.lifeRemaining == Core.START_LIVES && r.1.guessedLetters == [] && r.1.currentWord == ""
            && r.1.wordState == [] && r.1.timeout == 0
  {
  }

  /** From the menu a pressed mode button starts a round in that mode and shows the game
      screen; with an empty `word_state`, as after any reset, the new word is masked. */
  lemma MenuStartsRound(v: View, g: Core.Globals, input: Input, wordFile: seq<string>, phraseFile: seq<string>,
                        pick: nat, grid: seq<Slot>)
    requires v.state == Core.Menu && (input == BasicPressed || input == IntermediatePressed)
    requires CanHandle(v, g, input, wordFile, phraseFile, pick)
    ensures var mode := if input == BasicPressed then "basic" else "intermediate";
            var r := HandleEventsStep(v, g, input, wordFile, phraseFile, pick, grid);
            && r.0.state == Core.Game && r.0.letterButtons == grid
            && r.1 == Core.SetupState(g, mode, wordFile, phraseFile, pick)
            && (g.wordState == [] ==> r.1.wordState == Core.Mask(r.1.currentWord))
  {
  }

  /** The screen changes only when `handle_events` starts a round, ends one or handles
      Escape; in particular nothing an event does moves the game-over screen anywhere
      but to the menu, and `update` never changes the screen. */
  lemma ScreenTransitions(v: View, g: Core.Globals, input: Input, wordFile: seq<string>, phraseFile: seq<string>,
                          pick: nat, grid: seq<Slot>)
    requires CanHandle(v, g, input, wordFile, phraseFile, pick)
    ensures var r := HandleEventsStep(v, g, input, wordFile, phraseFile, pick, grid);
            && (v.state == Core.GameOver ==> r.0.state == (if input == Escape then Core.Menu else Core.GameOver))
            && (v.state == Core.Menu && input !in {BasicPressed, IntermediatePressed} ==> r.0.state == Core.Menu)
            && (v.state == Core.GameOver && input != Escape ==> r == (v, g))
    ensures UpdateStep(v, g).state == v.state
  {
  }

  /** What holds in every reachable state: the engine never has more than six lives,
      so the mistakes shown are never negative. */
  predicate Consistent(v: View, g: Core.Globals) {
    g.lifeRemaining <= Core.START_LIVES && g.mistakes >= 0 && v.mistakes >= 0
  }

  /** Every step the program can take keeps `Consistent`: an event, a frame's update,
      and a second of the engine's countdown. */
  lemma StepsKeepConsistent(v: View, g: Core.Globals, input: Input, wordFile: seq<string>, phraseFile: seq<string>,
                            pick: nat, grid: seq<Slot>)
    requires Consistent(v, g) && CanHandle(v, g, input, wordFile, phraseFile, pick)
    ensures var r := HandleEventsStep(v, g, input, wordFile, phraseFile, pick, grid); Consistent(r.0, r.1)
    ensures Consistent(UpdateStep(v, g), g)
    ensures Consistent(v, Core.TickState(g))
  {
  }

  // ----------------------------------------------------------------------------
  // The controller as an object

  /** `Game`. */
  class Game {
    var state: Core.State
    var transitionTimer: int
    var mistakes: int
    var wordState: seq<char>
    var lifeRemaining: int
    var timeout: int
    var letterButtons: seq<Slot>
    /** The engine's module globals, shared with every other user of the engine. */
    const core: Core.Session
    const letterSheet: Components.ScrabbleLetterSheet
    const hangmanSprites: Components.HangmanSprites

    function Fields(): View
      reads this
    {
      View(state, transitionTimer, mistakes, wordState, lifeRemaining, timeout, letterButtons)
    }

    /** Both sprite sheets are loaded. */
    ghost predicate SheetsLoaded()
      reads this, letterSheet, hangmanSprites
    {
      letterSheet.Valid() && |hangmanSprites.frames| == Components.FRAME_COUNT
    }

    /** The sprite sheets are loaded and the state is `Consistent`. */
    ghost predicate Valid()
      reads this, core, letterSheet, hangmanSprites
    {
      SheetsLoaded() && Consistent(Fields(), core.Snapshot())
    }

    /** The letter buttons this game's sheet gives. */
    function Grid(): seq<Slot>
      reads this, letterSheet
    {
      LetterGrid(letterSheet.sheetWidth, letterSheet.sheetHeight)
    }

    /** `Game.__init__`: the menu screen, the sheets loaded, the engine's counters copied. */
    constructor (core: Core.Session, letterSheetWidth: nat, letterSheetHeight: nat,
                 hangmanSheetWidth: nat, hangmanSheetHeight: nat)
      requires core.lifeRemaining <= Core.START_LIVES && core.mistakes >= 0
      ensures Valid() && this.core == core && fresh(letterSheet) && fresh(hangmanSprites)
      ensures letterSheet.sheetWidth == letterSheetWidth && letterSheet.sheetHeight == letterSheetHeight
      ensures Fields() == View(Core.Menu, 0, core.mistakes, core.wordState, core.lifeRemaining, core.timeout, [])
    {
      state := Core.Menu;
      this.core := core;
      letterSheet := new Components.ScrabbleLetterSheet(letterSheetWidth, letterSheetHeight);
      hangmanSprites := new Components.HangmanSprites(hangmanSheetWidth, hangmanSheetHeight);
      letterButtons := [];
      transitionTimer := 0;
      mistakes := core.mistakes;
      wordState := core.wordState;
      lifeRemaining := core.lifeRemaining;
      timeout := core.timeout;
    }

    /** `create_letter_buttons`: one button per letter A to Z, the `i`-th centred in
        column `i % 5`, row `i // 5` of the grid, showing the letter's sheet tile. */
    method CreateLetterButtons()
      requires letterSheet.Valid()
      modifies this`letterButtons
      ensures letterButtons == Grid()
    {
      letterButtons := [];
      var letters := Components.ASCII_UPPERCASE;
      var w, h := letterSheet.sheetWidth, letterSheet.sheetHeight;
      for i := 0 to |letters|
        invariant letterButtons == GridPrefix(i, w, h)
      {
        var col := i % GRID_COLUMNS;
        var row := i / GRID_COLUMNS;
        var x := GRID_LEFT + col * GRID_SPACING;
        var y := GRID_TOP + row * GRID_SPACING;
        var surface := letterSheet.GetLetter(letters[i]);
        Components.AlphabetTile(letterSheet, i);
        assert x == SlotX(i) && y == SlotY(i);
        assert surface == Some(Components.LetterTile(i, w, h));
        assert GridPrefix(i + 1, w, h) == GridPrefix(i, w, h) + [GridSlot(i, w, h)];
        if surface.Some? {
          letterButtons := letterButtons + [Slot(letters[i], x, y, surface.value)];
        }
      }
    }

    /** `handle_events`. */
    method HandleEvents(input: Input, wordFile: seq<string>, phraseFile: seq<string>, pick: nat)
      requires Valid() && CanHandle(Fields(), core.Snapshot(), input, wordFile, phraseFile, pick)
      modifies this, core
      ensures Valid()
      ensures (Fields(), core.Snapshot()) ==
                HandleEventsStep(old(Fields()), old(core.Snapshot()), input, wordFile, phraseFile, pick, Grid())
    {
      if state == Core.Menu {
        if input == BasicPressed {
          StartRound("basic", wordFile, phraseFile, pick);
        }
        if input == IntermediatePressed {
          StartRound("intermediate", wordFile, phraseFile, pick);
        }
      } else if state == Core.Game {
        if input.LetterClicked? {
          TakeLetter(input.letter);
        }
      }
      if input == Escape {
        ReturnToMenu();
      }
    }

    /** A menu button pressed in `handle_events`: set the engine up in that mode and
        show the game screen with fresh letter buttons. */
    method StartRound(mode: string, wordFile: seq<string>, phraseFile: seq<string>, pick: nat)
      requires Valid() && Core.CanSetup(core.Snapshot(), mode, wordFile, phraseFile, pick)
      modifies this, core
      ensures Valid()
      ensures Fields() == old(Fields()).(state := Core.Game, letterButtons := Grid(), transitionTimer := 0)
      ensures core.Snapshot() == Core.SetupState(old(core.Snapshot()), mode, wordFile, phraseFile, pick)
    {
      core.Setup(mode, wordFile, phraseFile, pick);
      state := Core.Game;
      CreateLetterButtons();
      transitionTimer := 0;
    }

    /** A letter handed out in the game screen, in `handle_events`. */
    method TakeLetter(letter: char)
      requires Valid()
      modifies this, core
      ensures Valid()
      ensures (Fields(), core.Snapshot()) == AfterGuess(old(Fields()), old(core.Snapshot()), letter)
    {
      core.GuessLetters(letter);
      wordState := core.wordState;
      lifeRemaining := core.lifeRemaining;
      if '_' !in wordState && lifeRemaining > 0 {
        core.GameOver();
        state := Core.Menu;
        letterButtons := [];
        mistakes := 0;
        core.lifeRemaining := Core.START_LIVES;
      }
      if lifeRemaining <= 0 {
        core.GameOver();
        state := Core.GameOver;
      }
    }

    /** The Escape key, in `handle_events`. */
    method ReturnToMenu()
      requires Valid()
      modifies this, core
      ensures Valid()
      ensures (Fields(), core.Snapshot()) == AfterEscape(old(Fields()), old(core.Snapshot()))
    {
      core.GameOver();
      state := Core.Menu;
      letterButtons := [];
      mistakes := 0;
      core.lifeRemaining := Core.START_LIVES;
    }

    /** `update`. */
    method Update()
      requires Valid()
      modifies this
      ensures Valid()
      ensures Fields() == UpdateStep(old(Fields()), core.Snapshot())
    {
      StepsKeepConsistent(Fields(), core.Snapshot(), Idle, [], [], 0, []);
      if state == Core.Game {
        wordState := core.wordState;
        transitionTimer := transitionTimer + 1;
        mistakes := Core.START_LIVES - core.lifeRemaining;
        timeout := core.timeout;
      }
    }

    /** The hangman frame `draw` shows: the frame for the number of mistakes, the last
        one once the mistakes reach it.  As mistakes are never negative, the index is
        in range and counts from the front. */
    function HangmanFrame(): (r: Option<Components.Rect>)
      reads this, core, letterSheet, hangmanSprites
      requires Valid()
      ensures r == Some(hangmanSprites.frames[if mistakes < Components.FRAME_COUNT then mistakes
                                              else Components.FRAME_COUNT - 1])
    {
      hangmanSprites.GetFrame(mistakes)
    }
  }
}
