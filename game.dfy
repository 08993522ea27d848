/**
 * One round of hangman: the word, the letters guessed so far, the miss
 * counter, the hint allowance and the end-of-round flags, together with the
 * views the game offers (masked word, wrong and correct letters), of which the
 * screen shows the masked word. The round reports its outcome to the shared
 * statistics ledger.
 */
module Hangman {
  import opened Text
  import opened Achievements

  /** Misses that end a round. */
  const MaxWrong := 6
  /** Hints a round starts with. */
  const HintsPerRound := 3
  /** Points a hint costs. */
  const HintCost := 50

  /** One entry of a word list. */
  datatype WordEntry = WordEntry(word: string, hint: string)

  datatype Option<T> = None | Some(value: T)

  /** The entry the round is played with; `pick` stands for the random index,
      which always lies inside a non-empty list. An empty list yields nothing. */
  function SelectWord(words: seq<WordEntry>, pick: nat): (r: Option<WordEntry>)
    requires words == [] || pick < |words|
    ensures r.None? <==> words == []
    ensures r.Some? ==> r.value in words
  {
    if words == [] then None else Some(words[pick])
  }

  /** A letter is correct when its lower-case form occurs in the word: a
      capital counts as its small letter, any other character as itself. */
  function IsCorrectGuess(word: string, letter: char): (r: bool)
    ensures 'A' <= letter <= 'Z' ==> (r <==> (letter as int + 32) as char in word)
    ensures !('A' <= letter <= 'Z') ==> (r <==> letter in word)
  {
    Lower(letter) in word
  }

  /** Every character of the word has been guessed (the win test). */
  function AllGuessed(word: string, guessed: seq<char>): (r: bool)
    ensures r <==> forall c :: c in word ==> c in guessed
    ensures word == [] ==> r
  {
    forall i :: 0 <= i < |word| ==> word[i] in guessed
  }

  predicate NoDuplicates(s: seq<char>) {
    forall i, j :: 0 <= i < j < |s| ==> s[i] != s[j]
  }

  /** The guessed letters that are not in the word, in guessing order. */
  function WrongLetters(word: string, guessed: seq<char>): (r: seq<char>)
    ensures forall c :: c in r <==> c in guessed && !IsCorrectGuess(word, c)
    ensures |r| <= |guessed|
  {
    if guessed == [] then []
    else
      var last := guessed[|guessed| - 1];
      var init := WrongLetters(word, guessed[..|guessed| - 1]);
      assert guessed == guessed[..|guessed| - 1] + [last];
      if IsCorrectGuess(word, last) then init else init + [last]
  }

  /** The guessed letters that are in the word, in guessing order. */
  function CorrectLetters(word: string, guessed: seq<char>): (r: seq<char>)
    ensures forall c :: c in r <==> c in guessed && IsCorrectGuess(word, c)
    ensures |r| <= |guessed|
  {
    if guessed == [] then []
    else
      var last := guessed[|guessed| - 1];
      var init := CorrectLetters(word, guessed[..|guessed| - 1]);
      assert guessed == guessed[..|guessed| - 1] + [last];
      if IsCorrectGuess(word, last) then init + [last] else init
  }

  /** Filtering keeps guessing order: the wrong letters of a concatenation
      are those of the first part followed by those of the second. */
  lemma {:induction false} WrongLettersKeepOrder(word: string, a: seq<char>, b: seq<char>)
    ensures WrongLetters(word, a + b) == WrongLetters(word, a) + WrongLetters(word, b)
    decreases |b|
  {
    if b == [] {
      assert a + b == a;
    } else {
      var init, last := b[..|b| - 1], b[|b| - 1];
      var tail := if IsCorrectGuess(word, last) then [] else [last];
      WrongLettersKeepOrder(word, a, init);
      assert (a + b)[..|a + b| - 1] == a + init;
      assert WrongLetters(word, a + b) == WrongLetters(word, a + init) + tail;
      assert WrongLetters(word, b) == WrongLetters(word, init) + tail;
    }
  }

  /** The same for the correct letters. */
  lemma {:induction false} CorrectLettersKeepOrder(word: string, a: seq<char>, b: seq<char>)
    ensures CorrectLetters(word, a + b) == CorrectLetters(word, a) + CorrectLetters(word, b)
    decreases |b|
  {
    if b == [] {
      assert a + b == a;
    } else {
      var init, last := b[..|b| - 1], b[|b| - 1];
      var tail := if IsCorrectGuess(word, last) then [last] else [];
      CorrectLettersKeepOrder(word, a, init);
      assert (a + b)[..|a + b| - 1] == a + init;
      assert CorrectLetters(word, a + b) == CorrectLetters(word, a + init) + tail;
      assert CorrectLetters(word, b) == CorrectLetters(word, init) + tail;
    }
  }

  /** The wrong and the correct letters split the guesses between them:
      every guess lands in exactly one of the two lists. */
  lemma {:induction false} FiltersPartition(word: string, guessed: seq<char>)
    ensures |WrongLetters(word, guessed)| + |CorrectLetters(word, guessed)| == |guessed|
    ensures multiset(WrongLetters(word, guessed)) + multiset(CorrectLetters(word, guessed))
         == multiset(guessed)
    decreases |guessed|
  {
    if guessed != [] {
      var init := guessed[..|guessed| - 1];
      FiltersPartition(word, init);
      assert guessed == init + [guessed[|guessed| - 1]];
    }
  }

  /** One symbol per character of the word: the character once guessed,
      `_` before. */
  function Mask(word: string, guessed: seq<char>): (r: seq<char>)
    ensures |r| == |word|
    ensures forall i :: 0 <= i < |word| ==> r[i] == (if word[i] in guessed then word[i] else '_')
  {
    seq(|word|, i requires 0 <= i < |word| => if word[i] in guessed then word[i] else '_')
  }

  /** The masked word as shown: the symbols separated by single spaces. */
  function MaskedWord(word: string, guessed: seq<char>): (r: string)
    ensures word == [] ==> r == []
    ensures word != [] ==> |r| == 2 * |word| - 1
  {
    Join(Mask(word, guessed), " ")
  }

  /** Symbol `i` of the masked word sits at position `2 * i` and a space
      follows it unless it is the last. */
  lemma MaskedWordAt(word: string, guessed: seq<char>, i: nat)
    requires i < |word|
    ensures 2 * i < |MaskedWord(word, guessed)|
    ensures MaskedWord(word, guessed)[2 * i] == (if word[i] in guessed then word[i] else '_')
    ensures i + 1 < |word| ==> MaskedWord(word, guessed)[2 * i + 1] == ' '
  {
    var m := Mask(word, guessed);
    JoinAt(m, " ", i);
    if i + 1 < |word| {
      JoinSepAt(m, " ", i);
      assert Join(m, " ")[2 * i + 1 .. 2 * i + 2] == " ";
    }
  }

  /** For a word without underscores, the masked word shows no `_` exactly
      when every character of the word has been guessed: the screen's view
      and the win test agree. */
  lemma MaskedWordComplete(word: string, guessed: seq<char>)
    requires '_' !in word
    ensures '_' !in MaskedWord(word, guessed) <==> AllGuessed(word, guessed)
  {
    var m := Mask(word, guessed);
    JoinMembers(m, " ", '_');
    if !AllGuessed(word, guessed) {
      var i :| 0 <= i < |word| && word[i] !in guessed;
      assert m[i] == '_';
    }
  }

  /** The wrong letters as shown: separated by a comma and a space. */
  function GetWrongLetters(word: string, guessed: seq<char>): (r: string)
    ensures var w := WrongLetters(word, guessed);
            && (w == [] ==> r == [])
            && (w != [] ==> |r| == 3 * |w| - 2)
            && (forall i :: 0 <= i < |w| ==> r[3 * i] == w[i])
            && forall k :: 0 <= k < |r| && k % 3 != 0 ==> r[k] == (if k % 3 == 1 then ',' else ' ')
  {
    var w := WrongLetters(word, guessed);
    CommaJoin(w);
    Join(w, ", ")
  }

  /** The correct letters as shown: separated by a comma and a space. */
  function GetCorrectLetters(word: string, guessed: seq<char>): (r: string)
    ensures var c := CorrectLetters(word, guessed);
            && (c == [] ==> r == [])
            && (c != [] ==> |r| == 3 * |c| - 2)
            && (forall i :: 0 <= i < |c| ==> r[3 * i] == c[i])
            && forall k :: 0 <= k < |r| && k % 3 != 0 ==> r[k] == (if k % 3 == 1 then ',' else ' ')
  {
    var c := CorrectLetters(word, guessed);
    CommaJoin(c);
    Join(c, ", ")
  }

  /** A list joined with `", "` holds piece `i` at position `3 * i`, and
      every other position holds the comma or the space that follows it. */
  lemma CommaJoin(xs: seq<char>)
    ensures xs != [] ==> |Join(xs, ", ")| == 3 * |xs| - 2
    ensures forall i :: 0 <= i < |xs| ==> Join(xs, ", ")[3 * i] == xs[i]
    ensures forall k :: 0 <= k < |Join(xs, ", ")| && k % 3 != 0 ==>
      Join(xs, ", ")[k] == (if k % 3 == 1 then ',' else ' ')
  {
    var r := Join(xs, ", ");
    forall i | 0 <= i < |xs| ensures r[3 * i] == xs[i] {
      JoinAt(xs, ", ", i);
    }
    forall k | 0 <= k < |r| && k % 3 != 0
      ensures r[k] == (if k % 3 == 1 then ',' else ' ')
    {
      var i := k / 3;
      JoinSepAt(xs, ", ", i);
      assert r[3 * i + 1 .. 3 * i + 3] == ", ";
      assert r[k] == r[3 * i + 1 .. 3 * i + 3][k - 3 * i - 1];
    }
  }

  /** Appending a new lower-case letter keeps the guesses distinct and
      lower-case, and adds it to the wrong letters exactly when it misses. */
  lemma GuessAppended(word: string, guessed: seq<char>, l: char)
    requires NoDuplicates(guessed) && l !in guessed && Lower(l) == l
    requires forall i :: 0 <= i < |guessed| ==> Lower(guessed[i]) == guessed[i]
    ensures NoDuplicates(guessed + [l])
    ensures forall i :: 0 <= i < |guessed + [l]| ==> Lower((guessed + [l])[i]) == (guessed + [l])[i]
    ensures WrongLetters(word, guessed + [l])
         == WrongLetters(word, guessed) + (if l in word then [] else [l])
  {
    assert (guessed + [l])[..|guessed|] == guessed;
  }

  /** What `useHint` reports: success, or the first guard that refused. */
  datatype HintOutcome = HintGranted | RoundOver | NoHintsLeft | NotEnoughPoints

  /**
   * The state of the current round. It shares the process-wide ledger, to
   * which it reports wins and losses and from whose points hints are paid.
   */
  class Game {
    var word: string
    var wordHint: string
    var guessedLetters: seq<char>
    var wrongGuesses: nat
    var maxWrong: nat
    var gameOver: bool
    var won: bool
    var hintsAvailable: int
    const ledger: Ledger

    /** The round's bookkeeping, whatever its status: the ledger is
        consistent and not in debt, guesses are distinct lower-case letters,
        and the miss counter is the number of wrong letters. */
    ghost predicate Tally()
      reads this, ledger
    {
      && ledger.Valid() && ledger.totalPoints >= 0
      && maxWrong == MaxWrong
      && wrongGuesses <= maxWrong
      && NoDuplicates(guessedLetters)
      && (forall i :: 0 <= i < |guessedLetters| ==> Lower(guessedLetters[i]) == guessedLetters[i])
      && wrongGuesses == |WrongLetters(word, guessedLetters)|
      && 0 <= hintsAvailable <= HintsPerRound
    }

    /** Every reachable state: a round is won exactly when it is over with
        the word complete, lost only at the miss limit, and a round still
        running is below the miss limit and, once guessed at, incomplete. */
    ghost predicate Valid()
      reads this, ledger
    {
      && Tally()
      && (won <==> gameOver && AllGuessed(word, guessedLetters))
      && (gameOver ==> AllGuessed(word, guessedLetters) || wrongGuesses == maxWrong)
      && (!gameOver ==> wrongGuesses < maxWrong)
      && (!gameOver && guessedLetters != [] ==> !AllGuessed(word, guessedLetters))
    }

    /** The state before any word is chosen. */
    constructor (ledger: Ledger)
      requires ledger.Valid() && ledger.totalPoints >= 0
      ensures Valid() && this.ledger == ledger
      ensures word == [] && wordHint == [] && guessedLetters == []
      ensures wrongGuesses == 0 && maxWrong == MaxWrong
      ensures !gameOver && !won && hintsAvailable == HintsPerRound
    {
      this.ledger := ledger;
      word, wordHint, guessedLetters := [], [], [];
      wrongGuesses, maxWrong := 0, MaxWrong;
      gameOver, won, hintsAvailable := false, false, HintsPerRound;
    }

    /** Starts a round with the entry at `pick`; with an empty list nothing
        happens. */
    method InitGame(words: seq<WordEntry>, pick: nat)
      requires Valid()
      requires words == [] || pick < |words|
      modifies this
      ensures Valid()
      ensures words == [] ==> unchanged(this)
      ensures words != [] ==>
        && word == LowerWord(words[pick].word) && wordHint == words[pick].hint
        && guessedLetters == [] && wrongGuesses == 0 && maxWrong == MaxWrong
        && !gameOver && !won && hintsAvailable == HintsPerRound
    {
      var selected := SelectWord(words, pick);
      if selected.None? {
        return;
      }
      word := LowerWord(selected.value.word);
      wordHint := selected.value.hint;
      guessedLetters := [];
      wrongGuesses, maxWrong := 0, MaxWrong;
      gameOver, won, hintsAvailable := false, false, HintsPerRound;
    }

    /** Plays one letter. A finished round or a repeated letter is refused
        and nothing changes; otherwise the lower-cased letter is appended,
        a miss is counted when it is not in the word, and the round is
        settled: won if the word is complete, else lost at the miss limit. */
    method MakeGuess(letter: char) returns (accepted: bool)
      requires Valid()
      modifies this, ledger
      ensures Valid()
      ensures accepted <==> !old(gameOver) && Lower(letter) !in old(guessedLetters)
      ensures !accepted ==> unchanged(this) && unchanged(ledger)
      ensures accepted ==>
        && word == old(word) && wordHint == old(wordHint)
        && hintsAvailable == old(hintsAvailable)
        && guessedLetters == old(guessedLetters) + [Lower(letter)]
        && wrongGuesses == old(wrongGuesses) + (if Lower(letter) in word then 0 else 1)
      ensures accepted && AllGuessed(word, guessedLetters) ==>
        gameOver && won && ledger.Snapshot() == AfterWin(old(ledger.Snapshot()), wrongGuesses)
      ensures accepted && !AllGuessed(word, guessedLetters) && wrongGuesses >= maxWrong ==>
        gameOver && !won && ledger.Snapshot() == AfterLoss(old(ledger.Snapshot()))
      ensures accepted && !AllGuessed(word, guessedLetters) && wrongGuesses < maxWrong ==>
        !gameOver && !won && ledger.Snapshot() == old(ledger.Snapshot())
      ensures ledger.unlockedSaved == old(ledger.unlockedSaved)
    {
      if gameOver {
        return false;
      }
      var l := Lower(letter);
      if l in guessedLetters {
        return false;
      }
      LowerIdempotent(letter);
      GuessAppended(word, guessedLetters, l);
      guessedLetters := guessedLetters + [l];
      if !IsCorrectGuess(word, l) {
        wrongGuesses := wrongGuesses + 1;
      }
      CheckGameStatus();
      return true;
    }

    /** Settles the round after a guess: a complete word wins (and is
        recorded with the misses so far) before the miss limit is looked at;
        reaching the limit loses (and is recorded); otherwise nothing
        changes. It runs only right after `MakeGuess` accepted a letter. */
    method CheckGameStatus()
      requires Tally() && !gameOver && !won
      modifies this, ledger
      ensures Valid()
      ensures word == old(word) && wordHint == old(wordHint)
      ensures guessedLetters == old(guessedLetters) && wrongGuesses == old(wrongGuesses)
      ensures hintsAvailable == old(hintsAvailable)
      ensures AllGuessed(word, guessedLetters) ==>
        gameOver && won && ledger.Snapshot() == AfterWin(old(ledger.Snapshot()), wrongGuesses)
      ensures !AllGuessed(word, guessedLetters) && wrongGuesses >= maxWrong ==>
        gameOver && !won && ledger.Snapshot() == AfterLoss(old(ledger.Snapshot()))
      ensures !AllGuessed(word, guessedLetters) && wrongGuesses < maxWrong ==>
        !gameOver && !won && ledger.Snapshot() == old(ledger.Snapshot())
      ensures ledger.unlockedSaved == old(ledger.unlockedSaved)
    {
      if AllGuessed(word, guessedLetters) {
        gameOver, won := true, true;
        var _ := ledger.RecordWin(wrongGuesses);
        return;
      }
      if wrongGuesses >= maxWrong {
        gameOver, won := true, false;
        ledger.RecordLoss();
      }
    }

    /** Buys a hint. Refused, with nothing changed, when the round is over,
        then when no hint is left, then when the ledger holds fewer than 50
        points; otherwise 50 points are paid, one hint is spent and the
        ledger counts it. No letter is revealed. */
    method UseHint() returns (outcome: HintOutcome)
      requires Valid()
      modifies this, ledger
      ensures Valid()
      ensures outcome ==
        if old(gameOver) then RoundOver
        else if old(hintsAvailable) <= 0 then NoHintsLeft
        else if old(ledger.totalPoints) < HintCost then NotEnoughPoints
        else HintGranted
      ensures outcome != HintGranted ==> unchanged(this) && unchanged(ledger)
      ensures outcome == HintGranted ==>
        && hintsAvailable == old(hintsAvailable) - 1 && hintsAvailable >= 0
        && ledger.Snapshot() == old(ledger.Snapshot()).(
             totalPoints := old(ledger.totalPoints) - HintCost,
             hintsUsed := old(ledger.hintsUsed) + 1)
        && ledger.unlockedSaved == old(ledger.unlockedSaved)
        && word == old(word) && wordHint == old(wordHint)
        && guessedLetters == old(guessedLetters) && wrongGuesses == old(wrongGuesses)
        && gameOver == old(gameOver) && won == old(won)
    {
      if gameOver {
        return RoundOver;
      }
      if hintsAvailable <= 0 {
        return NoHintsLeft;
      }
      if ledger.totalPoints < HintCost {
        return NotEnoughPoints;
      }
      ledger.totalPoints := ledger.totalPoints - HintCost;
      hintsAvailable := hintsAvailable - 1;
      ledger.RecordHintUsed();
      return HintGranted;
    }
  }

  /** The round "cat" played a, c, t shows "_ a _", then "c a _", then
      "c a t". */
  lemma CatMasks()
    ensures MaskedWord("cat", ['a']) == "_ a _"
    ensures MaskedWord("cat", ['a', 'c']) == "c a _"
    ensures MaskedWord("cat", ['a', 'c', 't']) == "c a t"
  {
    assert Mask("cat", ['a']) == ['_', 'a', '_'];
    assert Mask("cat", ['a', 'c']) == ['c', 'a', '_'];
    assert Mask("cat", ['a', 'c', 't']) == ['c', 'a', 't'];
  }

  /** The round "cat" played b, d, e, f, g, h: all six are misses and the
      word stays incomplete, so a round in a valid state that took these
      guesses is lost with six misses. */
  lemma CatLost()
    ensures WrongLetters("cat", ['b', 'd', 'e', 'f', 'g', 'h']) == ['b', 'd', 'e', 'f', 'g', 'h']
    ensures !AllGuessed("cat", ['b', 'd', 'e', 'f', 'g', 'h'])
  {
    var g := ['b', 'd', 'e', 'f', 'g', 'h'];
    forall c | c in g ensures !IsCorrectGuess("cat", c) {
      assert Lower(c) == c;
    }
    OnlyMisses("cat", g);
    assert "cat"[0] !in g;
  }

  /** When no guess is in the word, every guess is a wrong letter. */
  lemma {:induction false} OnlyMisses(word: string, guessed: seq<char>)
    requires forall c :: c in guessed ==> !IsCorrectGuess(word, c)
    ensures WrongLetters(word, guessed) == guessed
    decreases |guessed|
  {
    if guessed != [] {
      var init := guessed[..|guessed| - 1];
      assert forall c :: c in init ==> c in guessed;
      OnlyMisses(word, init);
      assert guessed == init + [guessed[|guessed| - 1]];
    }
  }
}
