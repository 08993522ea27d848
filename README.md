# Hangman game logic in Dafny

This project models the game-logic layer of a browser hangman game. It has two coupled
components.

**The round (`game`, module `Hangman`, class `Game`).**
- A round holds these fields:
  - the word, which is lower-cased when the round starts;
  - the word's hint;
  - the letters guessed so far, as an append-only list;
  - a miss counter capped at six;
  - an allowance of three hints;
  - the `gameOver` and `won` flags.
- A guess does the following:
  - it lower-cases the letter;
  - it refuses a finished round or a repeated letter;
  - otherwise it appends the letter, counts a miss when the letter is not in the word, and settles the round.
- Settling checks for a win (every character guessed) before it checks the miss limit. Either outcome is reported to the ledger.
- A hint passes three guards, then costs 50 points from the ledger.
- The game object offers three derived views:
  - the masked word, with symbols separated by spaces, which the screen shows;
  - the wrong letters, separated by `", "`;
  - the correct letters, separated by `", "`.

**The ledger (`achievementSystem`, module `Achievements`, class `Ledger`).**
- The ledger keeps eight counters: wins, losses, points, current and best streak, hints used, games played and perfect games.
- It scores a win as `100 + max(0, (6 - misses) * 10)`.
- It has a fixed catalog of seven achievement thresholds.
- It keeps a stored list of the identifiers of announced achievements.
- `getStats` reports a whole-percent win rate.

How the model is built:
- The counters are also a value, `Stats`. The value-level functions `AfterWin` and `AfterLoss` specify what the recording methods do to it.
- The catalog, the filters over it and the masked-word views are pure functions. The lemmas about them carry the properties.
- Module `Text` holds the two string operations the round uses: lower-casing a character, and joining one-character pieces with a separator.

## Model

| member | source | states |
|---|---|---|
| Text.Lower | js/game.js:98 | lower-casing maps exactly the ASCII capitals to their small letters and leaves every other character alone; the result is never a capital |
| Text.LowerWord | js/game.js:80 | the lower-cased word has the same length and is lower-cased position by position |
| Text.Join | js/game.js:228 | joining n one-character pieces with a separator gives the empty string for no pieces and otherwise length n·(s+1) − s, where s is the separator length |
| Text.JoinAt | js/game.js:224-228 | piece i can be read back at position i·(s+1) of the joined string, where s is the separator length |
| Text.JoinSepAt | js/game.js:224-228 | exactly the separator lies between piece i and piece i+1 |
| Text.JoinMembers | js/game.js:224-228 | a character occurs in the joined string iff it is a piece, or is in the separator and there are two or more pieces |
| Achievements.ZeroConsistent | js/achievements.js:7-16 | the zero ledger satisfies games = wins + losses, streak ≤ best streak and perfect games ≤ wins |
| Achievements.WinAward | js/achievements.js:97-99 | a win earns at least 100 points and at most 160 for a non-negative miss count; exactly 100 at six or more misses; each miss below six costs exactly 10 points |
| Achievements.WinAwardExamples | js/achievements.js:97-99 | 160 points for 0 misses, 130 for 3, 110 for 5, 100 for 6 and for 9 |
| Achievements.WinAwardMonotone | js/achievements.js:97-99 | fewer misses never earn fewer points, and below six misses the difference is 10 per miss |
| Achievements.AfterWin | js/achievements.js:86-106 | a win adds one to wins, games and the streak; the best streak becomes the larger of the old best and the new streak; the award is added to points; perfect games grow iff there were no misses; losses and hints stay; consistency is preserved |
| Achievements.AfterLoss | js/achievements.js:115-118 | a loss adds one to losses and games and ends the streak; wins, points, best streak, hints and perfect games stay; consistency is preserved |
| Achievements.Catalog | js/achievements.js:19-55 | the seven achievements in declaration order; every achievement is in it |
| Achievements.Id | js/achievements.js:21-51 | each achievement is stored under its catalog identifier: first_win, five_wins, ten_wins, perfect_game, streak_master, hint_master, points_collector |
| Achievements.Rank | js/achievements.js:19-55 | every achievement has its position in the seven-entry catalog |
| Achievements.IdInjective | js/achievements.js:21-51 | distinct achievements have distinct stored identifiers |
| Achievements.Holds | js/achievements.js:19-55 | the seven thresholds: one win, five wins, ten wins, one perfect game, a best streak of five, ten hints used, 1000 points |
| Achievements.HoldsMonotone | js/achievements.js:23-53 | a ledger with at least the wins, perfect games, best streak, hints and points of another meets every threshold the other meets |
| Achievements.WinKeepsThresholds | js/achievements.js:86-106 | a win never takes a threshold away |
| Achievements.SatisfiedIn | js/achievements.js:134 | filtering a catalog keeps exactly the members whose threshold holds, in catalog order |
| Achievements.Unlocked | js/achievements.js:133-135 | an achievement is unlocked iff its threshold holds on the counters; the list is in catalog order without repeats |
| Achievements.NotSaved | js/achievements.js:144 | keeps exactly the achievements whose identifier is not in the saved list, in order |
| Achievements.IdInIds | js/achievements.js:147 | an identifier is in the mapped identifier list iff its achievement is in the list |
| Achievements.Ids | js/achievements.js:147 | one identifier per achievement, identifier i being that of achievement i, in order |
| Achievements.NewlyUnlocked | js/achievements.js:141-144 | an achievement is announced iff its threshold holds and its identifier is not saved; catalog order |
| Achievements.SavedAfterCheck | js/achievements.js:146-151 | without news the saved list is unchanged; with news it holds the identifier of an achievement iff that achievement's threshold holds now |
| Achievements.SavedListCanShrink | js/achievements.js:146-148 | because the list is overwritten, a saved `points_collector` identifier drops out when a later check announces only `hint_master` after a 50-point hint |
| Achievements.WinCheckCanDrop | js/achievements.js:146-148 | with nine wins and points too low for `points_collector` even after a 5-miss win, the check after that win announces `ten_wins` and drops a saved `points_collector` |
| Achievements.FiveStraightWins | js/achievements.js:86-110 | five wins from a reset ledger, with a check after each of the first four, make the fifth check announce `five_wins` and `streak_master`, whatever the misses |
| Achievements.WinRate | js/achievements.js:179-181 | 0 before any game; otherwise the rate is 100·wins/games rounded half up, stated exactly as 2g·rate ≤ 200w + g < 2g·(rate+1); at most 100 when wins ≤ games |
| Achievements.Ledger.constructor | js/achievements.js:7-16 | the first-start ledger is zero, consistent, and nothing is saved |
| Achievements.Ledger.AddPoints | js/achievements.js:77-81 | only the points change, by exactly the argument; the new total is returned |
| Achievements.Ledger.RecordWin | js/achievements.js:86-110 | returns the award for the misses (0 by default) and moves the counters to `AfterWin` of the old ones |
| Achievements.Ledger.RecordLoss | js/achievements.js:115-120 | moves the counters to `AfterLoss` of the old ones |
| Achievements.Ledger.RecordHintUsed | js/achievements.js:125-128 | only the hints-used counter changes, by one |
| Achievements.Ledger.CheckNewAchievements | js/achievements.js:140-152 | returns exactly the met, unsaved achievements in catalog order; the saved list becomes the identifiers of everything met when that is non-empty, and is untouched otherwise |
| Achievements.Ledger.Reset | js/achievements.js:157-171 | every counter is zero and the saved list is empty |
| Achievements.Ledger.GetStats | js/achievements.js:176-183 | reports the counters unchanged and a win rate that is 0 before any game, the rounded percentage otherwise, and at most 100 on a consistent ledger |
| Hangman.IsCorrectGuess | js/game.js:97-99 | a guess is correct iff the letter, with an ASCII capital taken as its small letter, occurs in the word |
| Hangman.AllGuessed | js/game.js:137-140 | the win test holds iff every character occurring in the word is among the guesses; an empty word passes it |
| Hangman.Mask | js/game.js:224-227 | one symbol per character of the word: the character once guessed, `_` before |
| Hangman.SelectWord | js/game.js:55-66 | an empty list yields nothing; otherwise the entry comes from the list |
| Hangman.WrongLetters | js/game.js:234-237 | a letter is a wrong letter iff it was guessed and is not in the word |
| Hangman.CorrectLetters | js/game.js:243-246 | a letter is a correct letter iff it was guessed and is in the word |
| Hangman.WrongLettersKeepOrder | js/game.js:234-237 | filtering keeps guessing order: the wrong letters of a + b are those of a followed by those of b |
| Hangman.CorrectLettersKeepOrder | js/game.js:243-246 | the same for the correct letters |
| Hangman.FiltersPartition | js/game.js:234-246 | the wrong and correct letters together are exactly the guesses, counted with multiplicity |
| Hangman.MaskedWord | js/game.js:222-229 | the masked word has 2n − 1 characters for a word of n characters |
| Hangman.MaskedWordAt | js/game.js:222-229 | symbol i is at position 2i and is the character once guessed, `_` before; a space follows every symbol except the last |
| Hangman.MaskedWordComplete | js/game.js:137-140 | for a word without `_`, the masked word shows no `_` iff every character of the word has been guessed |
| Hangman.GetWrongLetters | js/game.js:234-238 | the list is empty iff there are no wrong letters; otherwise it has 3n − 2 characters, wrong letter i at position 3i, and a comma then a space between each two letters |
| Hangman.GetCorrectLetters | js/game.js:243-247 | the same for the correct letters |
| Hangman.CommaJoin | js/game.js:237 | a list joined with comma and space holds piece i at position 3i, a comma at every position 3i+1 and a space at every position 3i+2 |
| Hangman.GuessAppended | js/game.js:110-118 | appending a new lower-case letter keeps the guesses distinct and lower-case; the letter joins the wrong letters iff it misses |
| Hangman.Game.constructor | js/game.js:7-16 | the initial state has an empty word, no guesses, no misses, a limit of 6, three hints, and the round not over |
| Hangman.Game.InitGame | js/game.js:71-92 | with an empty word list nothing changes; otherwise the state is the picked entry's lower-cased word and hint, with no guesses, no misses, a limit of 6, three hints and the flags cleared; reachable-state invariants hold |
| Hangman.Game.MakeGuess | js/game.js:104-130 | refuses, changing nothing, iff the round is over or the lower-cased letter was guessed; otherwise appends it, counts a miss iff it is not in the word, then records a win (checked first) or a loss at the limit; guesses stay distinct, misses equal the wrong letters and never pass 6 |
| Hangman.Game.CheckGameStatus | js/game.js:135-180 | a complete word wins and records `AfterWin` with the current misses; otherwise reaching the limit loses and records `AfterLoss`; otherwise nothing changes |
| Hangman.Game.UseHint | js/game.js:185-217 | refuses, changing nothing, when the round is over, then when no hint is left, then below 50 points; on success it takes exactly 50 points and one hint and counts one hint used, and leaves the word, guesses, misses and flags alone |
| Hangman.CatMasks | js/game.js:222-229 | the word "cat" guessed a, c, t shows "_ a _", then "c a _", then "c a t" |
| Hangman.CatLost | js/game.js:234-237 | the guesses b, d, e, f, g, h against "cat" are all wrong letters and leave the word incomplete |
| Hangman.OnlyMisses | js/game.js:234-237 | when no guess is in the word, the wrong letters are all the guesses, in order |

## Left out

- `loadWords` (js/game.js:27-50) is not modelled. It fetches the word lists over the network and falls back to built-in lists. The model takes the word list as a parameter.
- `Math.random` in `selectRandomWord` is randomness. It becomes the parameter `pick`, which must index the list when the list is non-empty.
- The choice of the word list by the current language belongs to the i18n module, which is not part of this model.
- `load`, `save` and every `localStorage`/`JSON` call are persistence. They are left out. The stored list of unlocked identifiers is the field `Ledger.unlockedSaved`.
- The calls that play sounds, vibrate, show messages and alerts, and re-render are side effects without logic. They are dropped.
- Hangman.Game.UseHint: returns the outcome instead of a bool plus an alert. For `NoHintsLeft` and `NotEnoughPoints` the outcome is what the alert would have told. On a finished round the code returns false without any alert, and the model returns `RoundOver`.
- Text.Lower: lower-cases ASCII capitals only. JavaScript's `toLowerCase` also maps non-ASCII capitals. The Arabic letters of the game have no case.
- Guesses are single characters. Empty or multi-character strings passed to `makeGuess` are not modelled.
- Achievements.WinRate: agrees with `Math.round` of the floating-point quotient except where rounding error in that quotient crosses a .5 boundary. For 23 wins in 40 games the quotient times 100 falls just below 57.5, so the program shows 57 where the model gives 58. Floating point is not modelled.
- Integers are unbounded. JavaScript numbers lose precision beyond 2^53, and no counter reaches that.
- Achievement icons are display data and are left out.
- The catalog's threshold conditions are arrow functions. Inside the object literal their `this` is not the ledger, so `this.stats` is undefined when they run. `Achievements.Holds` models the evident intent instead: each threshold is a function of the counters.
- Hangman.Game.CheckGameStatus: requires a round that is not over. Its only caller is `makeGuess`, after its `gameOver` guard. Calling it on a finished round would record the outcome a second time.

## Notes on the code

- `checkNewAchievements` replaces the stored list with the identifiers met at that moment (js/achievements.js:147) instead of adding to it, so an identifier can drop out. `Achievements.SavedListCanShrink` shows this. A win never makes a met threshold fail (`Achievements.WinKeepsThresholds`); only points spent on hints can. The next check that announces anything then drops `points_collector`, even a check that follows a win (`Achievements.WinCheckCanDrop`).
- A hint charges points and spends an allowance but reveals no letter. The model keeps that.
