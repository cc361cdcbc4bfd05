# Mastermind game logic in Dafny

This project models the game logic of a small Mastermind implementation. The
logic is the `MastermindGame` class of `src/game.py`:

- the fixed constants: a code length of 4, the six colour symbols
  `R G B Y W O`, and a `max_turns` of 10 that no operation reads;
- the secret code, which starts empty;
- `generate_code`, which draws four symbols from the colour list;
- `is_valid_guess`, which accepts a guess of exactly four colour symbols;
- `evaluate_guess`, which scores a guess against the secret.

A guess earns a *perfect match* at each position where it equals the secret.
At any other position it earns a *colour match* when its symbol occurs
anywhere in the secret. No per-colour count is kept, so this is not classical
Mastermind scoring. For example, guess `WRRR` against secret `RGBY` scores
three colour matches. The model keeps this rule as written.

Layout:

- `game.dfy`, module `Mastermind`: the constants, the `Game` and `Score`
  datatypes, the operations, and the lemmas about scoring. Guesses and codes
  are `seq<char>`, so a guess may hold any character, such as `'X'`.
- `game_examples.dfy`, module `MastermindExamples`: the example scores and
  validation results from `tests/test_game.py`, proved as lemmas.

`Evaluate` follows the source's scoring loop one position at a time. It is
checked against an independent reference definition: `PerfectPositions` and
`ColorPositions`, the sets of indices that are perfect matches and colour
matches.

The scoring functions are pure. Neither they nor the validator can change the
game, which matches the source: `evaluate_guess` and `is_valid_guess` only read
fields.

## Model

| member | source | states |
|---|---|---|
| `Mastermind.NewGame` | src/game.py:4-8 | a new game's secret code is empty; the constants `CodeLength`, `Colors` and `MaxTurns` are fixed at 4, `RGBYWO` and 10 |
| `Mastermind.AllColors` | src/game.py:35-39 | the scan over the guess returns true exactly when every symbol is one of the six colours |
| `Mastermind.IsValidGuess` | src/game.py:31-39 | a guess is valid exactly when its length is 4 and every symbol is a colour; any other length, or any non-colour symbol, is rejected |
| `Mastermind.GenerateCode` | src/game.py:10-16 | the generated code has exactly 4 symbols, each drawn from the colour list, so it always passes `IsValidGuess` |
| `Mastermind.Evaluate` | src/game.py:18-29 | scoring requires the secret to be at least as long as the guess, because the loop indexes the secret at every guess position; perfect plus colour matches never exceed the guess length, because each position adds to at most one counter |
| `Mastermind.EvaluateCounts` | src/game.py:22-27 | the perfect count is the number of positions where guess and secret agree; the colour count is the number of positions where they differ and the guess symbol occurs anywhere in the secret |
| `Mastermind.PositionsDisjoint` | src/game.py:23-27 | no position is both a perfect match and a colour match, and together the two kinds number at most the guess length |
| `Mastermind.EvaluateGuess` | src/game.py:18-29 | scoring a guess against a game's secret yields exactly the perfect-position and colour-position counts, bounded by the guess length |
| `Mastermind.AllPerfectIff` | src/game.py:22-24 | the perfect count equals the guess length exactly when the guess agrees with the secret at every position |
| `Mastermind.WinIffSecret` | src/game.py:22-24 | a guess as long as the secret scores all perfect matches exactly when it equals the secret |
| `Mastermind.SelfScore` | src/game.py:22-27 | the secret scored against itself gives all perfect matches and no colour matches |
| `Mastermind.FreshGameCannotScore` | src/game.py:7 | a new game's secret is empty, so every valid guess is longer than the secret and cannot be scored before the secret is set |
| `MastermindExamples.PerfectGuessExample` | tests/test_game.py:26-31 | `RGBY` against secret `RGBY` scores (4, 0) |
| `MastermindExamples.SinglePerfectExample` | tests/test_game.py:33-38 | `RWWW` against secret `RGBY` scores (1, 0) |
| `MastermindExamples.SingleColorExample` | tests/test_game.py:41-46 | `WWWR` against secret `RGBY` scores (0, 1) |
| `MastermindExamples.TwoColorsExample` | tests/test_game.py:48-53 | `WWGR` against secret `RGBY` scores (0, 2) |
| `MastermindExamples.ThreeColorsExample` | tests/test_game.py:55-60 | `BWGR` against secret `RGBY` scores (0, 3) |
| `MastermindExamples.DuplicateSecretColorExample` | tests/test_game.py:62-67 | `BWGB` against secret `RBBY` scores (0, 2) |
| `MastermindExamples.MixedExample` | tests/test_game.py:70-75 | `RWGB` against secret `RBBY` scores (1, 1) |
| `MastermindExamples.DuplicateGuessSymbolsEachCount` | src/game.py:26-27 | `WRRR` against secret `RGBY` scores (0, 3): membership is tested against the whole secret, so three copies of a symbol the secret holds once all count |
| `MastermindExamples.ValidationExamples` | tests/test_game.py:78-92 | `RGBY` is valid; `RGBYG` (length 5) and `RGBX` (non-colour `X`) are rejected, as the tests expect; `RGB` (length 3) is an extra case, rejected by the length test at src/game.py:32-33 |

## Left out

- Evaluate: a guess longer than the secret raises IndexError in the source (src/game.py:23); the model excludes that input by its `requires` instead of modelling the exception.
- Randomness: `random.choice` becomes a nondeterministic choice from the colour list in `GenerateCode`. The distribution and uniformity of the draw are not modelled.
- `max_turns` (src/game.py:8) is kept as the constant `MaxTurns` only. The source declares it but never reads it, so no turn limit and no turn-related error is modelled.
- Storing a generated code: the source never assigns `generate_code`'s result to `secret_code`, which stays empty after construction. The model does not add a step that does so.
- The test at tests/test_game.py:33-38 shares its name with the one at tests/test_game.py:70-75. In Python the later definition replaces the earlier one, so only the later test runs. The earlier example still follows from the code and is proved as `SinglePerfectExample`.
- Python would accept guess elements of any type, such as multi-character strings. The model takes guesses as sequences of characters.
