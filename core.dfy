/** The rules engine of the hangman game (core.py).

    The Python module keeps the whole round in module globals that every function
    updates in place; here they are the fields of one `Session` object.  Each
    operation is a method on it, and each method is specified by a pure function
    on `Globals`, the value of all those fields together.  The properties of the
    engine are proved as lemmas about those functions.

    The background `threading.Timer` is replaced by an explicit `Tick`: one
    second of wall-clock time passing.  `armed` says whether a timer is pending;
    cancelling it clears the flag. */
module Core {
  import opened Builtins

  /** The three screens of the game. */
  datatype State = Menu | Game | GameOver

  /** Lives at the start of a round and after every reset. */
  const START_LIVES := 6

  /** Seconds a turn lasts: `setup` and every guess restart the countdown with it. */
  const TURN_SECONDS := 15

  // ----------------------------------------------------------------------------
  // The masked word

  /** The `word_state` that `setup` builds for a fresh word: a blank `' '` where
      the word has a space and a placeholder `'_'` everywhere else. */
  function Mask(word: string): (m: seq<char>)
    ensures |m| == |word|
    ensures forall i :: 0 <= i < |word| ==> (m[i] == ' ' <==> word[i] == ' ')
    ensures forall i :: 0 <= i < |word| ==> (m[i] == '_' <==> word[i] != ' ')
  {
    if word == [] then []
    else Mask(word[..|word| - 1]) + [if word[|word| - 1] == ' ' then ' ' else '_']
  }

  /** The `word_state` that a guess rebuilds from the upper-cased word and the
      letters guessed so far. */
  function Reveal(upper: string, guessed: seq<char>): (r: seq<char>)
    ensures |r| == |upper|
    ensures forall i :: 0 <= i < |upper| && upper[i] in guessed ==> r[i] == upper[i]
    ensures forall i :: 0 <= i < |upper| && upper[i] !in guessed && upper[i] == ' ' ==> r[i] == ' '
    ensures forall i :: 0 <= i < |upper| && upper[i] !in guessed && upper[i] != ' ' ==> r[i] == '_'
  {
    if upper == [] then []
    else
      var c := upper[|upper| - 1];
      Reveal(upper[..|upper| - 1], guessed) + [if c in guessed then c else if c == ' ' then ' ' else '_']
  }

  /** Before any guess, the rebuilt state is exactly the mask `setup` builds. */
  lemma MaskIsRevealOfNoGuess(word: string)
    ensures Mask(word) == Reveal(Upper(word), [])
  {
    var m, r := Mask(word), Reveal(Upper(word), []);
    forall i | 0 <= i < |word| ensures m[i] == r[i] {
      assert Upper(word)[i] == UpperChar(word[i]);
    }
  }

  /** `word_state` depends on the guessed letters only through which letters they are:
      neither their order nor their repetitions matter. */
  lemma RevealDependsOnLetterSet(upper: string, g1: seq<char>, g2: seq<char>)
    requires forall c :: c in g1 <==> c in g2
    ensures Reveal(upper, g1) == Reveal(upper, g2)
  {
    var r1, r2 := Reveal(upper, g1), Reveal(upper, g2);
    forall i | 0 <= i < |upper| ensures r1[i] == r2[i] {
      assert upper[i] in g1 <==> upper[i] in g2;
    }
  }

  /** No placeholder is left exactly when every character of the word is a space or a
      guessed letter, and the word itself has no `'_'` (which always shows as one). */
  lemma RevealSolved(upper: string, guessed: seq<char>)
    ensures '_' !in Reveal(upper, guessed) <==>
            forall i :: 0 <= i < |upper| ==> upper[i] != '_' && (upper[i] == ' ' || upper[i] in guessed)
  {
    var r := Reveal(upper, guessed);
    if '_' !in r {
      forall i | 0 <= i < |upper|
        ensures upper[i] != '_' && (upper[i] == ' ' || upper[i] in guessed)
      {
        assert r[i] != '_';
      }
    } else {
      var k :| 0 <= k < |r| && r[k] == '_';
      assert !(upper[k] != '_' && (upper[k] == ' ' || upper[k] in guessed));
    }
  }

  /** A position that shows its letter keeps showing it when more letters are guessed. */
  lemma RevealGrows(upper: string, guessed: seq<char>, more: seq<char>, i: int)
    requires 0 <= i < |upper|
    requires Reveal(upper, guessed)[i] == upper[i]
    ensures Reveal(upper, guessed + more)[i] == upper[i]
  {
    if upper[i] in guessed {
      assert upper[i] in guessed + more;
    }
  }

  // ----------------------------------------------------------------------------
  // The globals as one value, and what each operation does to them

  /** All module globals of core.py; `armed` stands for a pending `timer`. */
  datatype Globals = Globals(
    words: seq<string>,
    phrases: seq<string>,
    lifeRemaining: int,
    guessedLetters: seq<char>,
    wrongLetters: seq<char>,
    mistakes: int,
    currentWord: string,
    wordState: seq<char>,
    timeout: int,
    armed: bool)

  /** The globals as the module leaves them when it is first imported. */
  const INITIAL := Globals([], [], START_LIVES, [], [], 0, "", [], 0, false)

  /** A pool of candidates after `choose_word`/`choose_phrase` made sure it is loaded:
      an empty pool is filled from the lines of its file, a filled one is kept. */
  function Loaded(pool: seq<string>, fileLines: seq<string>): seq<string> {
    if pool == [] then fileLines else pool
  }

  /** One run of `countdown`: one second off the clock, then either a re-armed timer
      or, when time is up, one life lost and no timer. */
  function CountdownState(g: Globals): Globals {
    var t := g.timeout - 1;
    if t >= 1 then g.(timeout := t, armed := true)
    else g.(timeout := t, lifeRemaining := g.lifeRemaining - 1)
  }

  /** `start_timer(seconds)`: cancel any pending timer, set the clock, tick at once. */
  function StartTimerState(g: Globals, seconds: int): (r: Globals)
    ensures r.timeout == seconds - 1
    ensures r.armed <==> seconds >= 2
    ensures r.lifeRemaining == if seconds >= 2 then g.lifeRemaining else g.lifeRemaining - 1
    ensures r.(timeout := g.timeout, armed := g.armed, lifeRemaining := g.lifeRemaining) == g
  {
    CountdownState(g.(armed := false, timeout := seconds))
  }

  /** One second of wall-clock time: a pending timer fires and runs `countdown`;
      with no pending timer nothing happens. */
  function TickState(g: Globals): Globals {
    if g.armed then CountdownState(g.(armed := false)) else g
  }

  /** `n` seconds of wall-clock time with no other call in between. */
  function Ticks(g: Globals, n: nat): Globals
    decreases n
  {
    if n == 0 then g else Ticks(TickState(g), n - 1)
  }

  /** `game_over`: every round variable back to its initial value.  The pools,
      `wrong_letters` and the timer are not touched. */
  function GameOverState(g: Globals): Globals {
    g.(timeout := 0, guessedLetters := [], mistakes := 0, currentWord := "",
       wordState := [], lifeRemaining := START_LIVES)
  }

  /** What `setup(mode)` needs to draw a word: a candidate at index `pick` of the
      pool it draws from (`random.randrange` raises on an empty pool). */
  predicate CanSetup(g: Globals, mode: string, wordFile: seq<string>, phraseFile: seq<string>, pick: nat) {
    && (mode == "basic" ==> pick < |Loaded(g.words, wordFile)|)
    && (mode == "intermediate" ==> pick < |Loaded(g.phrases, phraseFile)|)
  }

  /** `setup(mode)`: restart the timer, draw a word ("basic") or a phrase
      ("intermediate"), and mask it if `word_state` is still empty. */
  function SetupState(g: Globals, mode: string, wordFile: seq<string>, phraseFile: seq<string>, pick: nat): Globals
    requires CanSetup(g, mode, wordFile, phraseFile, pick)
  {
    var t := StartTimerState(g, TURN_SECONDS);
    var chosen :=
      if mode == "basic" then
        var pool := Loaded(t.words, wordFile);
        t.(words := pool, currentWord := pool[pick])
      else if mode == "intermediate" then
        var pool := Loaded(t.phrases, phraseFile);
        t.(phrases := pool, currentWord := pool[pick])
      else t;
    if chosen.wordState == [] then chosen.(wordState := Mask(chosen.currentWord)) else chosen
  }

  /** What `setup(mode)` does: 14 seconds on the clock with a timer pending; lives,
      guesses, `wrong_letters` and `mistakes` untouched; the word drawn from the pool
      of the mode, loaded if it was empty (any other mode keeps the word); a non-empty
      `word_state` kept and an empty one replaced by the mask of the new word. */
  lemma SetupEffect(g: Globals, mode: string, wordFile: seq<string>, phraseFile: seq<string>, pick: nat)
    requires CanSetup(g, mode, wordFile, phraseFile, pick)
    ensures var r := SetupState(g, mode, wordFile, phraseFile, pick);
      && r.timeout == TURN_SECONDS - 1 && r.armed
      && r.lifeRemaining == g.lifeRemaining && r.guessedLetters == g.guessedLetters
      && r.wrongLetters == g.wrongLetters && r.mistakes == g.mistakes
      && (mode == "basic" ==>
            r.words == Loaded(g.words, wordFile) && r.currentWord in r.words && r.phrases == g.phrases)
      && (mode == "intermediate" ==>
            r.phrases == Loaded(g.phrases, phraseFile) && r.currentWord in r.phrases && r.words == g.words)
      && (mode != "basic" && mode != "intermediate" ==>
            r.currentWord == g.currentWord && r.words == g.words && r.phrases == g.phrases)
      && (g.wordState != [] ==> r.wordState == g.wordState)
      && (g.wordState == [] ==>
            && |r.wordState| == |r.currentWord|
            && (forall i :: 0 <= i < |r.currentWord| ==> (r.wordState[i] == ' ' <==> r.currentWord[i] == ' '))
            && (forall i :: 0 <= i < |r.currentWord| ==> (r.wordState[i] == '_' <==> r.currentWord[i] != ' ')))
  {
  }

  /** `guess_letters(letter)`: restart the timer, record the guess, charge a life for a
      letter that is not in the upper-cased word, and rebuild `word_state`.  The guess
      itself is not upper-cased, and a repeated guess is recorded and charged again. */
  function GuessState(g: Globals, letter: char): Globals {
    var t := StartTimerState(g, TURN_SECONDS);
    var guessed := t.guessedLetters + [letter];
    var upper := Upper(t.currentWord);
    t.(guessedLetters := guessed,
       lifeRemaining := if letter !in upper then t.lifeRemaining - 1 else t.lifeRemaining,
       wordState := Reveal(upper, guessed))
  }

  /** What a guess does: the letter is appended to the guesses, a life is lost exactly
      when the letter is not in the upper-cased word, 14 seconds are on the clock with a
      timer pending, the word and pools are untouched, and each position of `word_state`
      shows its upper-cased character once that character has been guessed, else a
      blank for a space and a placeholder for anything else. */
  lemma GuessEffect(g: Globals, letter: char)
    ensures var r := GuessState(g, letter);
      && r.guessedLetters == g.guessedLetters + [letter]
      && r.lifeRemaining == (if letter in Upper(g.currentWord) then g.lifeRemaining else g.lifeRemaining - 1)
      && r.timeout == TURN_SECONDS - 1 && r.armed
      && r.currentWord == g.currentWord && r.words == g.words && r.phrases == g.phrases
      && r.wrongLetters == g.wrongLetters && r.mistakes == g.mistakes
      && |r.wordState| == |g.currentWord|
      && (forall i :: 0 <= i < |g.currentWord| ==>
            r.wordState[i] == if UpperChar(g.currentWord[i]) in r.guessedLetters then UpperChar(g.currentWord[i])
                              else if g.currentWord[i] == ' ' then ' ' else '_')
  {
  }

  // ----------------------------------------------------------------------------
  // The countdown

  /** Seconds pass without effect when no timer is pending. */
  lemma {:induction false} TicksWhenDisarmed(g: Globals, n: nat)
    requires !g.armed
    decreases n
    ensures Ticks(g, n) == g
  {
    if n > 0 {
      TicksWhenDisarmed(TickState(g), n - 1);
    }
  }

  /** A pending timer with `t` seconds on the clock counts down one per second and,
      on the `t`-th second, costs exactly one life and stops. */
  lemma {:induction false} TicksWhenArmed(g: Globals, n: nat)
    requires g.armed && g.timeout >= 1
    decreases n
    ensures Ticks(g, n) ==
              if n < g.timeout then g.(timeout := g.timeout - n)
              else g.(timeout := 0, armed := false, lifeRemaining := g.lifeRemaining - 1)
  {
    if n > 0 {
      var h := TickState(g);
      if g.timeout >= 2 {
        assert h == g.(timeout := g.timeout - 1);
        TicksWhenArmed(h, n - 1);
      } else {
        assert h == g.(timeout := 0, armed := false, lifeRemaining := g.lifeRemaining - 1);
        TicksWhenDisarmed(h, n - 1);
      }
    }
  }

  /** An uninterrupted countdown started at `seconds` costs exactly one life, once:
      after `n` seconds the clock shows `seconds - 1 - n` and the timer is pending while
      time is left; from then on the life is gone, the clock is stopped and nothing
      else happens. */
  lemma CountdownCostsOneLife(g: Globals, seconds: int, n: nat)
    ensures Ticks(StartTimerState(g, seconds), n) ==
              if n < seconds - 1 then g.(timeout := seconds - 1 - n, armed := true)
              else g.(timeout := if seconds >= 1 then 0 else seconds - 1, armed := false,
                      lifeRemaining := g.lifeRemaining - 1)
  {
    var s := StartTimerState(g, seconds);
    if seconds >= 2 {
      TicksWhenArmed(s, n);
    } else {
      TicksWhenDisarmed(s, n);
    }
  }

  /** `game_over` does not cancel the timer: when one was pending, the next second
      after the reset still fires it, and with the clock reset to 0 that second costs
      a life, leaving 5 lives and a clock at -1 in the state that was just reset. */
  lemma StaleTimerAfterGameOver(g: Globals, n: nat)
    requires g.armed && n >= 1
    ensures Ticks(GameOverState(g), n) ==
              GameOverState(g).(timeout := -1, armed := false, lifeRemaining := START_LIVES - 1)
  {
    var h := TickState(GameOverState(g));
    TicksWhenDisarmed(h, n - 1);
  }

  // ----------------------------------------------------------------------------
  // Sequences of guesses

  /** The globals after guessing `letters` one after the other. */
  function GuessAll(g: Globals, letters: seq<char>): Globals {
    if letters == [] then g else GuessState(GuessAll(g, letters[..|letters| - 1]), letters[|letters| - 1])
  }

  /** How many of `letters` are not in `upper`: the lives a run of guesses costs. */
  function Misses(upper: string, letters: seq<char>): nat {
    if letters == [] then 0
    else Misses(upper, letters[..|letters| - 1]) + (if letters[|letters| - 1] in upper then 0 else 1)
  }

  lemma {:induction false} MissesAppend(upper: string, a: seq<char>, b: seq<char>)
    ensures Misses(upper, a + b) == Misses(upper, a) + Misses(upper, b)
  {
    if b != [] {
      assert (a + b)[..|a + b| - 1] == a + b[..|b| - 1];
      MissesAppend(upper, a, b[..|b| - 1]);
    } else {
      assert a + b == a;
    }
  }

  /** Taking the guess at position `k` out of a run takes its cost out of the total. */
  lemma {:induction false} MissesRemove(upper: string, l: seq<char>, k: nat)
    requires k < |l|
    ensures Misses(upper, l) == Misses(upper, l[..k] + l[k + 1..]) + (if l[k] in upper then 0 else 1)
  {
    var a, x, b := l[..k], l[k], l[k + 1..];
    assert l == a + [x] + b;
    MissesAppend(upper, a + [x], b);
    MissesAppend(upper, a, [x]);
    MissesAppend(upper, a, b);
    assert Misses(upper, [x]) == (if x in upper then 0 else 1) by {
      assert [x][..0] == [];
    }
  }

  /** Two runs holding the same guesses still do after taking one copy of the last guess
      of the first out of both. */
  lemma RemoveMatching(l1: seq<char>, l2: seq<char>, k: nat)
    requires l1 != [] && k < |l2| && l2[k] == l1[|l1| - 1]
    requires multiset(l1) == multiset(l2)
    ensures multiset(l1[..|l1| - 1]) == multiset(l2[..k] + l2[k + 1..])
  {
    var x := l2[k];
    assert l1 == l1[..|l1| - 1] + [x];
    assert l2 == l2[..k] + [x] + l2[k + 1..];
    assert multiset(l1[..|l1| - 1]) == multiset(l1) - multiset{x};
    assert multiset(l2[..k] + l2[k + 1..]) == multiset(l2) - multiset{x};
  }

  /** The lives a run of guesses costs do not depend on the order of the guesses. */
  lemma {:induction false} MissesPermutation(upper: string, l1: seq<char>, l2: seq<char>)
    requires multiset(l1) == multiset(l2)
    ensures Misses(upper, l1) == Misses(upper, l2)
  {
    if l1 != [] {
      var x := l1[|l1| - 1];
      assert x in multiset(l2) by {
        assert x in l1;
      }
      var k :| 0 <= k < |l2| && l2[k] == x;
      RemoveMatching(l1, l2, k);
      MissesPermutation(upper, l1[..|l1| - 1], l2[..k] + l2[k + 1..]);
      MissesRemove(upper, l2, k);
    } else {
      assert l2 == [];
    }
  }

  /** One guess as a single update of the globals. */
  lemma GuessStep(h: Globals, x: char)
    ensures GuessState(h, x) ==
              h.(guessedLetters := h.guessedLetters + [x],
                 lifeRemaining := h.lifeRemaining - (if x in Upper(h.currentWord) then 0 else 1),
                 timeout := TURN_SECONDS - 1, armed := true,
                 wordState := Reveal(Upper(h.currentWord), h.guessedLetters + [x]))
  {
  }

  /** A run of at least one guess: every guess is recorded in order, each miss costs one
      life, the clock shows 14 with a timer pending, and `word_state` is rebuilt from all
      letters guessed so far. */
  lemma {:induction false} GuessAllEffect(g: Globals, letters: seq<char>)
    requires letters != []
    ensures GuessAll(g, letters) ==
              g.(guessedLetters := g.guessedLetters + letters,
                 lifeRemaining := g.lifeRemaining - Misses(Upper(g.currentWord), letters),
                 timeout := TURN_SECONDS - 1, armed := true,
                 wordState := Reveal(Upper(g.currentWord), g.guessedLetters + letters))
  {
    var front, x := letters[..|letters| - 1], letters[|letters| - 1];
    assert letters == front + [x];
    var h := GuessAll(g, front);
    if front == [] {
      assert h == g;
    } else {
      GuessAllEffect(g, front);
    }
    assert h.guessedLetters + [x] == g.guessedLetters + letters;
    assert h.currentWord == g.currentWord;
    GuessStep(h, x);
  }

  /** Guessing the same letters in any order leaves the same `word_state`, the same
      lives and the same clock; only the order of `guessed_letters` differs. */
  lemma GuessOrderIrrelevant(g: Globals, l1: seq<char>, l2: seq<char>)
    requires multiset(l1) == multiset(l2)
    ensures GuessAll(g, l1).wordState == GuessAll(g, l2).wordState
    ensures GuessAll(g, l1).lifeRemaining == GuessAll(g, l2).lifeRemaining
    ensures GuessAll(g, l1) == GuessAll(g, l2).(guessedLetters := GuessAll(g, l1).guessedLetters)
  {
    assert |l2| == |l1| by {
      assert |l2| == |multiset(l2)| == |multiset(l1)| == |l1|;
    }
    if l1 == [] {
      return;
    }
    GuessAllEffect(g, l1);
    GuessAllEffect(g, l2);
    MissesPermutation(Upper(g.currentWord), l1, l2);
    forall c ensures c in g.guessedLetters + l1 <==> c in g.guessedLetters + l2 {
      assert c in l1 <==> c in multiset(l1);
      assert c in l2 <==> c in multiset(l2);
    }
    RevealDependsOnLetterSet(Upper(g.currentWord), g.guessedLetters + l1, g.guessedLetters + l2);
  }

  // ----------------------------------------------------------------------------
  // The module globals as an object

  /** The module globals of core.py. */
  class Session {
    var words: seq<string>
    var phrases: seq<string>
    var lifeRemaining: int
    var guessedLetters: seq<char>
    var wrongLetters: seq<char>
    var mistakes: int
    var currentWord: string
    var wordState: seq<char>
    var timeout: int
    var armed: bool

    /** All globals as one value. */
    function Snapshot(): Globals
      reads this
    {
      Globals(words, phrases, lifeRemaining, guessedLetters, wrongLetters, mistakes,
              currentWord, wordState, timeout, armed)
    }

    /** The globals as the module is imported: six lives, nothing drawn, no timer. */
    constructor ()
      ensures Snapshot() == INITIAL
    {
      words, phrases := [], [];
      lifeRemaining := START_LIVES;
      guessedLetters, wrongLetters := [], [];
      mistakes := 0;
      currentWord := "";
      wordState := [];
      timeout := 0;
      armed := false;
    }

    /** `choose_word`: fill the word pool from its file's lines if it is empty, then
        return the candidate at the random index `pick`. */
    method ChooseWord(wordFile: seq<string>, pick: nat) returns (word: string)
      requires pick < |Loaded(words, wordFile)|
      modifies this`words
      ensures words == Loaded(old(words), wordFile)
      ensures word == words[pick] && word in words
    {
      if words == [] {
        for i := 0 to |wordFile|
          invariant words == wordFile[..i]
        {
          words := words + [wordFile[i]];
        }
        assert wordFile[..|wordFile|] == wordFile;
      }
      word := words[pick];
    }

    /** `choose_phrase`: the same over the phrase pool. */
    method ChoosePhrase(phraseFile: seq<string>, pick: nat) returns (phrase: string)
      requires pick < |Loaded(phrases, phraseFile)|
      modifies this`phrases
      ensures phrases == Loaded(old(phrases), phraseFile)
      ensures phrase == phrases[pick] && phrase in phrases
    {
      if phrases == [] {
        for i := 0 to |phraseFile|
          invariant phrases == phraseFile[..i]
        {
          phrases := phrases + [phraseFile[i]];
        }
        assert phraseFile[..|phraseFile|] == phraseFile;
      }
      phrase := phrases[pick];
    }

    /** `setup(mode)`. */
    method Setup(mode: string, wordFile: seq<string>, phraseFile: seq<string>, pick: nat)
      requires CanSetup(Snapshot(), mode, wordFile, phraseFile, pick)
      modifies this
      ensures Snapshot() == SetupState(old(Snapshot()), mode, wordFile, phraseFile, pick)
    {
      StartTimer(TURN_SECONDS);
      if mode == "basic" {
        currentWord := ChooseWord(wordFile, pick);
      } else if mode == "intermediate" {
        currentWord := ChoosePhrase(phraseFile, pick);
      }
      if wordState == [] {
        MaskWord();
      }
    }

    /** The loop of `setup` that fills the empty `word_state`: a blank for each space of
        the word and a placeholder for every other character. */
    method MaskWord()
      requires wordState == []
      modifies this`wordState
      ensures wordState == Mask(currentWord)
    {
      var word := currentWord;
      for i := 0 to |word|
        invariant wordState == Mask(word[..i])
      {
        if word[i] == ' ' {
          wordState := wordState + [' '];
        } else {
          wordState := wordState + ['_'];
        }
        assert word[..i + 1][..i] == word[..i];
      }
      assert word[..|word|] == word;
    }

    /** `guess_letters(letter)`. */
    method GuessLetters(letter: char)
      modifies this
      ensures Snapshot() == GuessState(old(Snapshot()), letter)
    {
      ResetTimer(TURN_SECONDS);
      ghost var t := Snapshot();
      wordState := [];
      guessedLetters := guessedLetters + [letter];
      if letter !in Upper(currentWord) {
        lifeRemaining := lifeRemaining - 1;
      }
      RevealWord();
      assert Snapshot() == t.(guessedLetters := guessedLetters, lifeRemaining := lifeRemaining, wordState := wordState);
    }

    /** The loop of `guess_letters` that refills the emptied `word_state` from the
        upper-cased word: each guessed character, a blank for a space, a placeholder
        for anything else. */
    method RevealWord()
      requires wordState == []
      modifies this`wordState
      ensures wordState == Reveal(Upper(currentWord), guessedLetters)
    {
      var upper := Upper(currentWord);
      for i := 0 to |upper|
        invariant wordState == Reveal(upper[..i], guessedLetters)
      {
        var c := upper[i];
        if c in guessedLetters {
          wordState := wordState + [c];
        } else if c == ' ' {
          wordState := wordState + [' '];
        } else {
          wordState := wordState + ['_'];
        }
        assert upper[..i + 1][..i] == upper[..i];
      }
      assert upper[..|upper|] == upper;
    }

    /** `reduce_life`: one life less, with no floor at zero. */
    method ReduceLife()
      modifies this`lifeRemaining
      ensures lifeRemaining == old(lifeRemaining) - 1
    {
      lifeRemaining := lifeRemaining - 1;
    }

    /** `start_timer(seconds)`. */
    method StartTimer(seconds: int)
      modifies this
      ensures Snapshot() == StartTimerState(old(Snapshot()), seconds)
    {
      if armed {
        armed := false;
      }
      timeout := seconds;
      Countdown();
    }

    /** `countdown`. */
    method Countdown()
      modifies this
      ensures Snapshot() == CountdownState(old(Snapshot()))
    {
      timeout := timeout - 1;
      if timeout >= 1 {
        armed := true;
      } else {
        ReduceLife();
      }
    }

    /** The pending timer firing after one second (the callback of `threading.Timer`). */
    method Tick()
      modifies this
      ensures Snapshot() == TickState(old(Snapshot()))
    {
      if armed {
        armed := false;
        Countdown();
      }
    }

    /** `game_over`. */
    method GameOver()
      modifies this
      ensures Snapshot() == GameOverState(old(Snapshot()))
    {
      timeout := 0;
      guessedLetters := [];
      mistakes := 0;
      currentWord := "";
      wordState := [];
      lifeRemaining := START_LIVES;
    }

    /** `reset_timer(seconds)`. */
    method ResetTimer(seconds: int)
      modifies this
      ensures Snapshot() == StartTimerState(old(Snapshot()), seconds)
    {
      StartTimer(seconds);
    }
  }
}
