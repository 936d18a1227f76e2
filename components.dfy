/** The non-drawing logic of the game's widgets (components.py): button press
    handling, the one-shot letter buttons with their fade-in, and the tile
    arithmetic of the two sprite sheets.  A sprite is represented by the
    rectangle of the sheet it is cut from; surfaces and drawing are not modelled. */
module Components {
  import opened Builtins

  /** pygame's number for the left mouse button. */
  const LEFT_BUTTON := 1

  /** A pygame `Rect`. */
  datatype Rect = Rect(left: int, top: int, width: nat, height: nat) {
    /** `Rect.collidepoint`: the point lies inside, right and bottom edges excluded. */
    predicate CollidePoint(x: int, y: int) {
      left <= x < left + width && top <= y < top + height
    }
  }

  /** `surface.get_rect(center=(cx, cy))` for a surface of the given size: pygame puts
      the corner half the size (rounded down) up and to the left of the centre. */
  function RectAtCenter(cx: int, cy: int, width: nat, height: nat): (r: Rect)
    ensures r.width == width && r.height == height
    ensures r.left == cx - width / 2 && r.top == cy - height / 2
    ensures r.left <= cx && r.top <= cy
    ensures width > 0 && height > 0 ==> r.CollidePoint(cx, cy)
  {
    Rect(cx - width / 2, cy - height / 2, width, height)
  }

  /** The pygame events the widgets look at. */
  datatype Event =
    | MouseButtonDown(button: int, x: int, y: int)
    | MouseButtonUp(button: int, x: int, y: int)
    | KeyDown(key: int)
    | Quit
    | OtherEvent

  /** A left-button press inside `rect`. */
  predicate LeftPressIn(e: Event, rect: Rect) {
    e.MouseButtonDown? && e.button == LEFT_BUTTON && rect.CollidePoint(e.x, e.y)
  }

  /** A left-button release, anywhere. */
  predicate LeftRelease(e: Event) {
    e.MouseButtonUp? && e.button == LEFT_BUTTON
  }

  // ----------------------------------------------------------------------------
  // Menu buttons

  /** A menu button (`Button`); its images and caption are not modelled. */
  class Button {
    const rect: Rect
    var clicked: bool

    /** A button whose normal image has the given size, centred at `(cx, cy)`. */
    constructor (width: nat, height: nat, cx: int, cy: int)
      ensures rect == RectAtCenter(cx, cy, width, height) && !clicked
    {
      rect := RectAtCenter(cx, cy, width, height);
      clicked := false;
    }

    /** `Button.handle_event`: true exactly for a left press inside the button, which
        also marks it clicked; a left release clears the mark. */
    method HandleEvent(e: Event) returns (pressed: bool)
      modifies this`clicked
      ensures pressed <==> LeftPressIn(e, rect)
      ensures clicked == if pressed then true else if LeftRelease(e) then false else old(clicked)
    {
      if e.MouseButtonDown? && e.button == LEFT_BUTTON {
        if rect.CollidePoint(e.x, e.y) {
          clicked := true;
          return true;
        }
      }
      if e.MouseButtonUp? && e.button == LEFT_BUTTON {
        clicked := false;
      }
      return false;
    }
  }

  // ----------------------------------------------------------------------------
  // Letter buttons

  /** The two flags of a letter button that events change. */
  datatype LetterFlags = LetterFlags(clicked: bool, disabled: bool)

  /** `LetterButton.handle_event`: the new flags and the returned letter. */
  function LetterResponse(f: LetterFlags, rect: Rect, letter: char, e: Event): (LetterFlags, Option<char>) {
    if f.disabled then (f, None)
    else if LeftPressIn(e, rect) then (LetterFlags(true, true), Some(letter))
    else if LeftRelease(e) then (f.(clicked := false), None)
    else (f, None)
  }

  /** The flags after a letter button has seen `events`. */
  function FlagsAfter(f: LetterFlags, rect: Rect, letter: char, events: seq<Event>): LetterFlags {
    if events == [] then f
    else LetterResponse(FlagsAfter(f, rect, letter, events[..|events| - 1]), rect, letter, events[|events| - 1]).0
  }

  /** What a letter button returns for each of `events`, in order. */
  function Replies(f: LetterFlags, rect: Rect, letter: char, events: seq<Event>): (out: seq<Option<char>>)
    ensures |out| == |events|
  {
    if events == [] then []
    else
      Replies(f, rect, letter, events[..|events| - 1])
      + [LetterResponse(FlagsAfter(f, rect, letter, events[..|events| - 1]), rect, letter, events[|events| - 1]).1]
  }

  /** How many letters a run of replies holds. */
  function Yields(out: seq<Option<char>>): nat {
    if out == [] then 0 else Yields(out[..|out| - 1]) + (if out[|out| - 1].Some? then 1 else 0)
  }

  /** A disabled letter button stays disabled whatever it sees. */
  lemma {:induction false} DisabledStaysDisabled(f: LetterFlags, rect: Rect, letter: char, events: seq<Event>)
    requires f.disabled
    ensures FlagsAfter(f, rect, letter, events) == f
  {
    if events != [] {
      DisabledStaysDisabled(f, rect, letter, events[..|events| - 1]);
    }
  }

  /** A letter button hands out its own letter and nothing else, and does so at most
      once over any sequence of events (never, if it starts disabled); once it has,
      it is disabled.  This is what keeps the interface from guessing a letter twice. */
  lemma {:induction false} LetterAtMostOnce(f: LetterFlags, rect: Rect, letter: char, events: seq<Event>)
    ensures Yields(Replies(f, rect, letter, events)) <= if f.disabled then 0 else 1
    ensures Yields(Replies(f, rect, letter, events)) == 1 ==> FlagsAfter(f, rect, letter, events).disabled
    ensures !FlagsAfter(f, rect, letter, events).disabled ==> Yields(Replies(f, rect, letter, events)) == 0
    ensures forall i :: 0 <= i < |events| && Replies(f, rect, letter, events)[i].Some? ==>
              Replies(f, rect, letter, events)[i] == Some(letter)
  {
    if events != [] {
      var front := events[..|events| - 1];
      LetterAtMostOnce(f, rect, letter, front);
      var before := FlagsAfter(f, rect, letter, front);
      var out := Replies(f, rect, letter, events);
      assert out[..|out| - 1] == Replies(f, rect, letter, front);
      if before.disabled {
        assert out[|out| - 1] == None;
      }
      if f.disabled {
        DisabledStaysDisabled(f, rect, letter, front);
      }
    }
  }

  /** `LetterButton.update`'s fade-in step: 8 more alpha per frame, capped at 255. */
  function FadeIn(alpha: int): (r: int)
    ensures alpha < 255 ==> r == if alpha + 8 < 255 then alpha + 8 else 255
    ensures alpha >= 255 ==> r == alpha
    ensures 0 <= alpha <= 255 ==> alpha <= r <= 255
  {
    if alpha < 255 then (if 255 < alpha + 8 then 255 else alpha + 8) else alpha
  }

  /** Alpha after `n` frames. */
  function Faded(alpha: int, n: nat): int {
    if n == 0 then alpha else FadeIn(Faded(alpha, n - 1))
  }

  /** From the initial alpha of 0, the button is fully opaque after 32 frames: after `n`
      frames its alpha is `min(255, 8 * n)`, never decreasing and never outside [0, 255]. */
  lemma {:induction false} FadeFromZero(n: nat)
    ensures Faded(0, n) == if 8 * n < 255 then 8 * n else 255
    ensures n > 0 ==> Faded(0, n - 1) <= Faded(0, n)
  {
    if n > 0 {
      FadeFromZero(n - 1);
    }
  }

  /** A letter tile (`LetterButton`). */
  class LetterButton {
    const letter: char
    const rect: Rect
    var clicked: bool
    var disabled: bool
    var alpha: int

    function Flags(): LetterFlags
      reads this
    {
      LetterFlags(clicked, disabled)
    }

    /** A new button for a letter surface of the given size, centred at `(cx, cy)`:
        enabled, not clicked, fully transparent. */
    constructor (letter: char, surfaceWidth: nat, surfaceHeight: nat, cx: int, cy: int)
      ensures this.letter == letter && rect == RectAtCenter(cx, cy, surfaceWidth, surfaceHeight)
      ensures !clicked && !disabled && alpha == 0
    {
      this.letter := letter;
      rect := RectAtCenter(cx, cy, surfaceWidth, surfaceHeight);
      clicked, disabled := false, false;
      alpha := 0;
    }

    /** `LetterButton.handle_event`. */
    method HandleEvent(e: Event) returns (r: Option<char>)
      modifies this`clicked, this`disabled
      ensures (Flags(), r) == LetterResponse(old(Flags()), rect, letter, e)
    {
      if disabled {
        return None;
      }
      if e.MouseButtonDown? && e.button == LEFT_BUTTON {
        if rect.CollidePoint(e.x, e.y) {
          clicked := true;
          disabled := true;
          return Some(letter);
        }
      }
      if e.MouseButtonUp? && e.button == LEFT_BUTTON {
        clicked := false;
      }
      return None;
    }

    /** `LetterButton.update`, without the image it redraws. */
    method Update()
      modifies this`alpha
      ensures alpha == FadeIn(old(alpha))
    {
      if alpha < 255 {
        alpha := if 255 < alpha + 8 then 255 else alpha + 8;
      }
    }
  }

  // ----------------------------------------------------------------------------
  // Sprite sheets

  /** `string.ascii_uppercase`. */
  const ASCII_UPPERCASE: string := "ABCDEFGHIJKLMNOPQRSTUVWXYZ"

  /** The alphabet's letters are the 26 consecutive codes from `'A'`. */
  lemma AlphabetCodes()
    ensures |ASCII_UPPERCASE| == 26
    ensures forall i :: 0 <= i < |ASCII_UPPERCASE| ==> ASCII_UPPERCASE[i] as int == 'A' as int + i
  {
  }

  /** The position of an upper-case ASCII letter in the alphabet. */
  function AlphabetIndex(c: char): (i: nat)
    requires 'A' <= c <= 'Z'
    ensures i < |ASCII_UPPERCASE| && ASCII_UPPERCASE[i] == c
  {
    AlphabetCodes();
    c as int - 'A' as int
  }

  /** Column and row of the `i`-th tile of a sheet with `columns` tiles per row. */
  function TileCell(i: nat, columns: nat): (nat, nat)
    requires columns > 0
  {
    (i % columns, i / columns)
  }

  /** The column is below the column count, and column and row give back the index. */
  lemma TileCellInverse(i: nat, columns: nat)
    requires columns > 0
    ensures TileCell(i, columns).0 < columns
    ensures i == TileCell(i, columns).1 * columns + TileCell(i, columns).0
  {
  }

  /** Distinct indices get distinct tiles. */
  lemma TileCellsDistinct(i: nat, j: nat, columns: nat)
    requires columns > 0 && i != j
    ensures TileCell(i, columns) != TileCell(j, columns)
  {
    TileCellInverse(i, columns);
    TileCellInverse(j, columns);
  }

  /** Where the `i`-th tile of a sheet with `columns` tiles per row is cut: the tile in
      column `i % columns`, row `i // columns`, at `(col * tileWidth, row * tileHeight)`. */
  function TileRect(i: nat, columns: nat, tileWidth: nat, tileHeight: nat): Rect
    requires columns > 0
  {
    var cell := TileCell(i, columns);
    Rect(cell.0 * tileWidth, cell.1 * tileHeight, tileWidth, tileHeight)
  }

  lemma {:induction false} ScaleStrict(a: nat, b: nat, k: nat)
    requires a < b
    ensures a * k + k <= b * k
    decreases b - a
  {
    assert (a + 1) * k == a * k + k;
    if a + 1 < b {
      ScaleStrict(a + 1, b, k);
    }
  }

  /** Distinct tiles of a sheet never overlap: for every point, at most one of the
      two tiles contains it. */
  lemma {:induction false} TilesDisjoint(i: nat, j: nat, columns: nat, tileWidth: nat, tileHeight: nat, x: int, y: int)
    requires columns > 0 && tileWidth > 0 && tileHeight > 0 && i != j
    ensures !(TileRect(i, columns, tileWidth, tileHeight).CollidePoint(x, y)
              && TileRect(j, columns, tileWidth, tileHeight).CollidePoint(x, y))
  {
    var ci, cj := TileCell(i, columns), TileCell(j, columns);
    TileCellsDistinct(i, j, columns);
    if ci.0 < cj.0 {
      ScaleStrict(ci.0, cj.0, tileWidth);
    } else if cj.0 < ci.0 {
      ScaleStrict(cj.0, ci.0, tileWidth);
    } else if ci.1 < cj.1 {
      ScaleStrict(ci.1, cj.1, tileHeight);
    } else {
      ScaleStrict(cj.1, ci.1, tileHeight);
    }
  }

  /** Columns and rows of the letter sheet (26 letters and 6 empty tiles). */
  const LETTER_COLUMNS := 8
  const LETTER_ROWS := 4

  /** Columns and rows of the hangman sheet (8 frames). */
  const FRAME_COLUMNS := 4
  const FRAME_ROWS := 2
  const FRAME_COUNT := 8

  /** On a sheet of `rows` rows of `columns` tiles, each `1/columns` of the sheet wide and
      `1/rows` of it high, a tile index below `columns * rows` lands in a row below
      `rows`, and its tile lies wholly inside the sheet. */
  lemma {:induction false} TileInSheet(i: nat, columns: nat, rows: nat, sheetWidth: nat, sheetHeight: nat)
    requires columns > 0 && rows > 0 && i < columns * rows
    ensures TileCell(i, columns).1 < rows
    ensures var r := TileRect(i, columns, sheetWidth / columns, sheetHeight / rows);
            r.left + r.width <= sheetWidth && r.top + r.height <= sheetHeight
  {
    var cell := TileCell(i, columns);
    TileCellInverse(i, columns);
    if rows < cell.1 {
      ScaleStrict(rows, cell.1, columns);
    }
    assert cell.1 < rows;
    ScaleStrict(cell.0, columns, sheetWidth / columns);
    ScaleStrict(cell.1, rows, sheetHeight / rows);
  }

  /** The tile a letter is cut from on a letter sheet of the given size. */
  function LetterTile(i: nat, sheetWidth: nat, sheetHeight: nat): Rect {
    TileRect(i, LETTER_COLUMNS, sheetWidth / LETTER_COLUMNS, sheetHeight / LETTER_ROWS)
  }

  /** The 26 letters fit the 8 by 4 grid: letter `i` is in a row below 4, and its tile
      lies inside the sheet. */
  lemma LetterTileInSheet(i: nat, sheetWidth: nat, sheetHeight: nat)
    requires i < |ASCII_UPPERCASE|
    ensures TileCell(i, LETTER_COLUMNS).1 < LETTER_ROWS
    ensures var r := LetterTile(i, sheetWidth, sheetHeight);
            r.left + r.width <= sheetWidth && r.top + r.height <= sheetHeight
  {
    AlphabetCodes();
    TileInSheet(i, LETTER_COLUMNS, LETTER_ROWS, sheetWidth, sheetHeight);
  }

  /** The 8 frames fit the 4 by 2 grid: frame `i` is in a row below 2, and its tile lies
      inside the sheet. */
  lemma FrameTileInSheet(i: nat, sheetWidth: nat, sheetHeight: nat)
    requires i < FRAME_COUNT
    ensures TileCell(i, FRAME_COLUMNS).1 < FRAME_ROWS
    ensures var r := TileRect(i, FRAME_COLUMNS, sheetWidth / FRAME_COLUMNS, sheetHeight / FRAME_ROWS);
            r.left + r.width <= sheetWidth && r.top + r.height <= sheetHeight
  {
    TileInSheet(i, FRAME_COLUMNS, FRAME_ROWS, sheetWidth, sheetHeight);
  }

  /** The letter map after the first `n` letters of the alphabet were cut from a sheet
      of the given size. */
  function LetterTiles(n: nat, sheetWidth: nat, sheetHeight: nat): map<char, Rect>
    requires n <= |ASCII_UPPERCASE|
  {
    if n == 0 then map[]
    else LetterTiles(n - 1, sheetWidth, sheetHeight)[ASCII_UPPERCASE[n - 1] := LetterTile(n - 1, sheetWidth, sheetHeight)]
  }

  /** The first `n` letters are exactly the keys, each with the tile of its place. */
  lemma {:induction false} LetterTilesContents(n: nat, sheetWidth: nat, sheetHeight: nat)
    requires n <= |ASCII_UPPERCASE|
    ensures forall c :: c in LetterTiles(n, sheetWidth, sheetHeight) <==> 'A' <= c && c as int < 'A' as int + n
    ensures forall c :: 'A' <= c && c as int < 'A' as int + n ==>
              LetterTiles(n, sheetWidth, sheetHeight)[c] == LetterTile(c as int - 'A' as int, sheetWidth, sheetHeight)
  {
    if n > 0 {
      LetterTilesContents(n - 1, sheetWidth, sheetHeight);
      AlphabetCodes();
      assert ASCII_UPPERCASE[n - 1] as int == 'A' as int + n - 1;
    }
  }

  /** `ScrabbleLetterSheet`: the letter tiles, keyed by upper-case letter. */
  class ScrabbleLetterSheet {
    const sheetWidth: nat
    const sheetHeight: nat
    var letters: map<char, Rect>

    /** Every letter of the alphabet has the tile of its place in the alphabet. */
    ghost predicate Valid()
      reads this
    {
      forall c :: 'A' <= c <= 'Z' ==>
        c in letters && letters[c] == LetterTile(c as int - 'A' as int, sheetWidth, sheetHeight)
    }

    /** Loads the sheet: `letters` starts empty and is filled with all 26 tiles. */
    constructor (sheetWidth: nat, sheetHeight: nat)
      ensures this.sheetWidth == sheetWidth && this.sheetHeight == sheetHeight
      ensures Valid() && forall c :: c in letters <==> 'A' <= c <= 'Z'
    {
      this.sheetWidth := sheetWidth;
      this.sheetHeight := sheetHeight;
      letters := map[];
      new;
      LoadLetters();
      LetterTilesContents(|ASCII_UPPERCASE|, sheetWidth, sheetHeight);
    }

    /** `load_letters_from_scrabble_sheet`: the `i`-th letter of `string.ascii_uppercase`
        gets the tile in column `i % 8`, row `i // 8`, overwriting any tile it had. */
    method LoadLetters()
      modifies this`letters
      ensures letters == old(letters) + LetterTiles(|ASCII_UPPERCASE|, sheetWidth, sheetHeight)
    {
      var tileWidth := sheetWidth / LETTER_COLUMNS;
      var tileHeight := sheetHeight / LETTER_ROWS;
      for i := 0 to |ASCII_UPPERCASE|
        invariant letters == old(letters) + LetterTiles(i, sheetWidth, sheetHeight)
      {
        letters := letters[ASCII_UPPERCASE[i] := TileRect(i, LETTER_COLUMNS, tileWidth, tileHeight)];
      }
    }

    /** `get_letter`: the tile of the letter, looked up upper-cased, or `None`. */
    function GetLetter(letter: char): (r: Option<Rect>)
      reads this
      ensures 'a' <= letter <= 'z' ==>
                var upper := (letter as int - 32) as char;
                r == if upper in letters then Some(letters[upper]) else None
      ensures !('a' <= letter <= 'z') ==> r == if letter in letters then Some(letters[letter]) else None
    {
      var key := UpperChar(letter);
      if key in letters then Some(letters[key]) else None
    }
  }

  /** On a loaded sheet an ASCII letter of either case finds the tile of its place in
      the alphabet. */
  lemma GetLetterFindsTile(sheet: ScrabbleLetterSheet, c: char)
    requires sheet.Valid()
    requires 'A' <= c <= 'Z' || 'a' <= c <= 'z'
    ensures sheet.GetLetter(c) == Some(LetterTile(AlphabetIndex(UpperChar(c)), sheet.sheetWidth, sheet.sheetHeight))
  {
  }

  /** On a loaded sheet the `i`-th letter of the alphabet finds the `i`-th tile. */
  lemma AlphabetTile(sheet: ScrabbleLetterSheet, i: nat)
    requires sheet.Valid() && i < |ASCII_UPPERCASE|
    ensures sheet.GetLetter(ASCII_UPPERCASE[i]) == Some(LetterTile(i, sheet.sheetWidth, sheet.sheetHeight))
  {
    AlphabetCodes();
    GetLetterFindsTile(sheet, ASCII_UPPERCASE[i]);
  }

  /** `HangmanSprites`: the frames of the hangman drawing, in order. */
  class HangmanSprites {
    const sheetWidth: nat
    const sheetHeight: nat
    var frames: seq<Rect>

    /** Loads the sheet: eight frames. */
    constructor (sheetWidth: nat, sheetHeight: nat)
      ensures this.sheetWidth == sheetWidth && this.sheetHeight == sheetHeight
      ensures |frames| == FRAME_COUNT
      ensures forall i :: 0 <= i < FRAME_COUNT ==>
                frames[i] == TileRect(i, FRAME_COLUMNS, sheetWidth / FRAME_COLUMNS, sheetHeight / FRAME_ROWS)
    {
      this.sheetWidth := sheetWidth;
      this.sheetHeight := sheetHeight;
      frames := [];
      new;
      LoadFrames();
    }

    /** `load_hangman_frames`: appends frame `i` cut from column `i % 4`, row `i // 4`. */
    method LoadFrames()
      modifies this`frames
      ensures |frames| == |old(frames)| + FRAME_COUNT && frames[..|old(frames)|] == old(frames)
      ensures forall i :: 0 <= i < FRAME_COUNT ==>
                frames[|old(frames)| + i] == TileRect(i, FRAME_COLUMNS, sheetWidth / FRAME_COLUMNS, sheetHeight / FRAME_ROWS)
    {
      var frameWidth := sheetWidth / FRAME_COLUMNS;
      var frameHeight := sheetHeight / FRAME_ROWS;
      for i := 0 to FRAME_COUNT
        invariant |frames| == |old(frames)| + i && frames[..|old(frames)|] == old(frames)
        invariant forall k :: 0 <= k < i ==>
                    frames[|old(frames)| + k] == TileRect(k, FRAME_COLUMNS, frameWidth, frameHeight)
      {
        var col := i % FRAME_COLUMNS;
        var row := i / FRAME_COLUMNS;
        frames := frames + [Rect(col * frameWidth, row * frameHeight, frameWidth, frameHeight)];
      }
    }

    /** `get_frame(mistakes)`: the frame at `min(mistakes, len(frames) - 1)`, `None` when
        there are no frames.  Python reads a negative index from the end; one below
        `-len(frames)` raises, which callers never do. */
    function GetFrame(mistakes: int): (r: Option<Rect>)
      reads this
      requires frames == [] || mistakes >= -|frames|
      ensures frames == [] <==> r == None
      ensures 0 <= mistakes < |frames| ==> r == Some(frames[mistakes])
      ensures frames != [] && mistakes >= |frames| ==> r == Some(frames[|frames| - 1])
      ensures frames != [] && mistakes < 0 ==> r == Some(frames[|frames| + mistakes])
    {
      if frames == [] then None
      else
        var index := if mistakes < |frames| - 1 then mistakes else |frames| - 1;
        Some(if index >= 0 then frames[index] else frames[|frames| + index])
    }
  }
}
