# Color guessing game — a verified model

A model of the logic of the React colour-guessing game in
`color-game/src/App.js`. The player picks a tier (easy, medium or hard). A
random target colour is shown for a few seconds and then hidden. The player
must pick it out of a set of distinct option colours before the game clock
runs out. 500 ms after a correct pick, the tier's points are added and a new
round starts with a new target. At the end of the game the high score is raised
to the score if the score is higher.

The model has five modules:

- `Wrappers` (`wrappers.dfy`) defines the `Option` type.
- `Difficulty` (`difficulty.dfy`) is the `DIFFICULTY_LEVELS` table. `Tier` has
  three constructors, `Level` gives each tier's profile (easy 45/6/1/60/6,
  medium 30/3/2/40/6, hard 20/2/3/10/6, in the order time limit, reveal time,
  points, colour variation, option count), and `TierOf` is the lookup by
  string key.
- `Colors` (`colors.dfy`) models `generateRandomColor` and `adjustColor`,
  including its `hex2rgb`/`rgb2hex` helpers.
  - Every `Math.random()` value is an explicit parameter: a `Draw`, which is an
    exact fraction `num/den` in [0, 1).
  - `Math.floor(u * 16)` becomes `(16 * num) / den`.
  - The channel offset `Math.floor(u * v - v / 2)` is computed exactly on
    rationals.
  - Direction of the codec, as the program has it: the generator emits
    upper-case digits, `rgb2hex` emits lower-case zero-padded digits, and
    decoding accepts both.
- `Options` (`options.dfy`) models `generateColorOptions`.
  - The method keeps the source's `while` loop.
  - The function `Grow` specifies the retry loop. A candidate that is already
    present (by exact string equality) is dropped and the next one is drawn.
  - The final `sort` with a random comparator is modelled as a caller-chosen
    list of swaps. The result is therefore always a permutation of the
    accumulated options.
- `Game` (`game.dfy`) models the component's state hooks as the fields of
  class `ColorGame`.
  - Each event is one method: `startGame`, one firing of the reveal timer, one
    firing of the game timer, `handleGuess`, the 500 ms continuation, the quit
    dialog handlers, the high-score reset and the plain screen switches.
  - `Valid()` is the invariant every event preserves.
  - Every event method states its entire new state, either as an update of
    `Snapshot()` or field by field.
  - The events receive the tier itself rather than its string key. The
    buttons at `App.js:456-472` only ever pass the three table keys, and
    `Difficulty.TierOf`/`Difficulty.TierOfKey` show that each key finds
    exactly its tier.
  - The field `pending` is the queue of scheduled 500 ms continuations. Each
    entry is the tier that the continuation's closure captured.

The model follows the code as written, including the behaviours below; the
one abstraction is the bounded retry loop (see `Options.GenerateColorOptions`
under "## Left out"):

- The game is not over when `timeRemaining` reaches 0. It ends on the next
  game tick.
- The continuation after a correct guess does not clear the status. It also
  does not reset the game clock.
- Quitting and starting a new game do not cancel a pending continuation. It
  still fires, adding points and replacing the round.
- Every correct click made while a continuation is pending schedules one more
  continuation.
- An unknown key finds nothing (`TierOf` gives None). `startGame` would then
  throw a TypeError at `App.js:152` before changing any state. The buttons at
  `App.js:456-472` never pass such a key, so the events take a `Tier`.
- The shuffle is a `sort` with a random comparator, not a uniform
  permutation.
- A guess is rejected only while the target is shown. The source does not
  check the current screen.
- In the hard tier a distractor can decode to the same value as the target
  and still differ from it as a string (`#ab12cd` against `#AB12CD`). It then
  counts as a distinct option, and clicking it is a wrong guess.
- The rules screen does not match the scoring or the medium tier. It promises
  one point per correct selection (`App.js:547-548`), but the table gives 2 for
  medium and 3 for hard (`App.js:33`, `App.js:41`). It also promises medium
  "trickier shades" (`App.js:537-538`), but medium distractors are unrelated
  random colours, drawn exactly as in the easy tier (`App.js:157-160`).
  `Options.MediumLikeEasy` states this.

## Model

| member | source | states |
|---|---|---|
| Difficulty.TierOf | color-game/src/App.js:20-45 | a key finds a tier only when it is that tier's key; any other key finds nothing |
| Difficulty.TierOfKey | color-game/src/App.js:20-45 | every tier is found under its own key, so the lookup inverts the key function |
| Difficulty.ProfilesWellFormed | color-game/src/App.js:20-45 | every tier has a positive time limit, reveal time and reward, a reveal time shorter than its time limit, and at least two options |
| Colors.Scale | color-game/src/App.js:111 | `Math.floor(u * n)` of a draw in [0,1) is an index below n |
| Colors.GenerateRandomColor | color-game/src/App.js:107-114 | the loop yields a 7-character string: `#` followed by six characters, each the letter of `0123456789ABCDEF` its draw selects; the string is an upper-case hex colour |
| Colors.RandomColorChannels | color-game/src/App.js:107-122 | a generated colour is a well-formed hex colour, and decoding it gives channels 16·d₂ⱼ + d₂ⱼ₊₁ from the drawn digits |
| Colors.Hex2Rgb | color-game/src/App.js:117-122 | parsing the three digit pairs of a well-formed colour gives three channels in [0,255] |
| Colors.Rgb2HexRoundTrip | color-game/src/App.js:117-131 | for channels in [0,255], `rgb2hex` gives `#` plus two lower-case, zero-padded hex digits per channel, and `hex2rgb` of that gives the channels back exactly |
| Colors.Clamp | color-game/src/App.js:135-146 | the clamped value is always in [0,255]; it is the input when the input is already in range, 0 below the range and 255 above it |
| Colors.AdjustColorChannels | color-game/src/App.js:116-149 | the adjusted colour is a lower-case hex colour, and each decoded channel equals clamp(c + floor(u·v − v/2)) for the input channel c and that channel's draw u |
| Colors.HardOffsetRange | color-game/src/App.js:137 | with the hard tier's variation 2.5, every offset floor(u·2.5 − 1.25) lies in {−2, −1, 0, 1} |
| Colors.HardAdjustIsNear | color-game/src/App.js:116-149 | a hard-tier adjustment keeps each decoded channel between 2 below and 1 above the original's |
| Colors.SameValueDifferentString | color-game/src/App.js:125-130 | with zero offsets, adjusting `#AB12CD` gives `#ab12cd`: same decoded value, different string |
| Options.DistinctOccursOnce | color-game/src/App.js:165-167 | in a list of pairwise distinct colours, each member occurs exactly once |
| Options.CandidateIsDistractor | color-game/src/App.js:157-163 | an easy or medium candidate is an upper-case random colour; a hard candidate is a lower-case colour within [−2,+1] of the target on every channel |
| Options.MediumLikeEasy | color-game/src/App.js:157-160 | a medium-tier candidate is exactly the easy-tier candidate, an upper-case random colour; the medium colour variation plays no part |
| Options.GrowSpec | color-game/src/App.js:153-168 | when the draws suffice, the accumulation loop ends with exactly optionCount pairwise-distinct colours that extend the starting list (so the target comes first), and every added colour is a distractor of the tier |
| Options.Swap | color-game/src/App.js:170 | one exchange keeps the length, the multiset of colours and distinctness |
| Options.Shuffle | color-game/src/App.js:170 | reordering keeps the length, the multiset of colours and distinctness |
| Options.GrowUniform | color-game/src/App.js:153-168 | on concrete draws the accumulation loop completes: starting from the target `#000000`, candidates drawn as six values j/16 each (j = 1..5) are all new and are all accepted |
| Options.ColorOptionsSpec | color-game/src/App.js:151-171 | options are produced exactly when the accumulation completes; they then form a permutation of the accumulated list, have optionCount pairwise-distinct entries, contain the target exactly once, and every other entry is a distractor of the tier |
| Options.GenerateColorOptions | color-game/src/App.js:151-171 | the while loop computes the specified options (`ColorOptions`): optionCount distinct entries including the target, all other entries distractors of the tier; None when the draws run out |
| Game.EasyRoundExists | color-game/src/App.js:206-210 | a witness that rounds are generated: for those concrete draws an easy round exists, with target `#000000` and the six uniform colours as options, whatever the shuffle |
| Game.NewRound | color-game/src/App.js:206-210 | a fresh target and its options: the target is an upper-case colour among optionCount distinct options |
| Game.ColorGame.constructor | color-game/src/App.js:174-188 | the initial state: main menu, no tier, empty target and options, zero scores and timers, colour revealed, dialog closed, nothing pending |
| Game.ColorGame.StartGame | color-game/src/App.js:203-223 | sets the tier, the new target and options, score 0, empty status, the tier's reveal time and time limit, the target shown and the game screen; the high score, the dialog and pending continuations are unchanged; the target is among the options; the invariant holds |
| Game.ColorGame.BeginGame | color-game/src/App.js:212-222 | the state updates of startGame, field by field, with every other field unchanged |
| Game.ColorGame.RevealTick | color-game/src/App.js:226-237 | acts only while the target is shown and the countdown is positive; the countdown goes down by one, and the target is hidden exactly when it goes from 1 to 0; everything else, including the game clock and both scores, is unchanged |
| Game.ColorGame.GameTick | color-game/src/App.js:240-255 | acts only while the target is hidden on the game screen; a positive clock goes down by one; at 0 the screen becomes game over and the high score becomes max(high score, score); the clock never goes negative and the high score never decreases |
| Game.ColorGame.HandleGuess | color-game/src/App.js:313-346 | does nothing while the target is shown; a correct guess sets the correct status and queues a continuation carrying the current tier; a wrong guess changes only the status |
| Game.ColorGame.RoundWon | color-game/src/App.js:327-339 | the oldest continuation adds its captured tier's points, installs a new target among new options, and restarts the reveal countdown with the target shown; the status, game clock, high score, screen and tier are unchanged |
| Game.ColorGame.NextRound | color-game/src/App.js:328-338 | the state updates of the continuation once its round exists, with every other field unchanged |
| Game.ColorGame.Quit | color-game/src/App.js:190-192 | opens the quit dialog and changes nothing else |
| Game.ColorGame.ConfirmQuit | color-game/src/App.js:194-197 | closes the dialog and returns to the main menu; the score and the high score are unchanged |
| Game.ColorGame.CancelQuit | color-game/src/App.js:199-201 | closes the dialog and changes nothing else |
| Game.ColorGame.ResetHighScore | color-game/src/App.js:400 | the high score becomes 0 and nothing else changes |
| Game.ColorGame.ShowScreen | color-game/src/App.js:392 | a menu button that only switches to a screen other than the game screen |
| Game.ResetTwice | color-game/src/App.js:400 | resetting the high score twice gives the same state as resetting it once |
| Game.HardGameTimesOut | color-game/src/App.js:240-255 | in a hard game with no guesses, after the reveal, twenty game ticks bring the clock to 0 with the game still on, and only the twenty-first ends it with the high score still 0; this holds exactly when a round is generated |
| Game.EasyCorrectGuess | color-game/src/App.js:313-339 | in an easy game, after the six-second reveal, guessing the target shows the correct status and the continuation scores 1 and shows the new target; confirming quit then keeps the high score at 0; this holds exactly when both rounds are generated |
| Game.EasyDoubleClick | color-game/src/App.js:313-339 | two correct clicks before the continuation fires queue two continuations, and the game scores 2 instead of 1; this holds exactly when both rounds are generated |

## Left out

- Rendering, styling and bootstrapping are not modelled: the JSX of `renderScreen`, `Button.js`, `Card.js`, `tailwind.config.js` and `index.js`.
- Audio and background music are not modelled. These are browser APIs, and an audio failure never touches game state.
- `createConfetti` is not modelled. It is DOM animation driven by floating-point randomness.
- Real timer scheduling is not modelled: `setTimeout`, effect re-runs, cleanups and stale-callback races. Each timer firing is an explicit method call, and the caller chooses the order of events.
- Floating-point arithmetic is not modelled. Each `Math.random()` value is an exact fraction in [0, 1), so rounding effects of `Math.random() * 16` and `u * v - v/2` are excluded.
- The probability distribution of the shuffle comparator is not modelled. The sort is a caller-chosen list of swaps, so only "some permutation" is stated.
- Options.GenerateColorOptions: the source retries without end. The model has a finite supply of draws and returns None when they run out; `StartGame` and `RoundWon` then leave the state unchanged.
- Colors.Hex2Rgb: it requires a well-formed colour (`#` plus six hex digits), which is the only kind the program builds. `parseInt` on malformed text, giving `NaN`, is not modelled.
- Game.ColorGame.HandleGuess: it relies on the invariant that a tier is chosen once the target has been hidden. The source would fail on a missing tier, but this cannot happen, so that failure is not modelled.
- Game.ColorGame.ShowScreen: it excludes the game screen, which only `startGame` enters. The high-score, rules, menu and play-again buttons are this one method.
- The `isSoundEnabled` and music-playing state is not modelled. It only gates audio.
