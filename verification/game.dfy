/** A model of the Mastermind game logic: the fixed game constants, secret-code
    generation, guess validation and the (simplified) guess scoring rule.

    Guesses and codes are sequences of single-character colour symbols, so a
    guess arriving from outside may hold any character and must be validated.
 */
module Mastermind {

  /** Number of symbols in a code. */
  const CodeLength: nat := 4

  /** The six colour symbols a code may use. */
  const Colors: seq<char> := ['R', 'G', 'B', 'Y', 'W', 'O']

  /** Declared by the game but never consulted by any operation. */
  const MaxTurns: nat := 10

  /** The game state: the only mutable field is the secret code. */
  datatype Game = Game(secretCode: seq<char>)

  /** The outcome of scoring one guess. */
  datatype Score = Score(perfect: nat, color: nat)

  /** A freshly constructed game: its secret code is empty until set. */
  function NewGame(): (g: Game)
    ensures g.secretCode == []
  {
    Game([])
  }

  // ---------------------------------------------------------------------------
  // Validation
  // ---------------------------------------------------------------------------

  /** Scans the guess front to back and stops at the first symbol that is not
      a colour. */
  function AllColors(guess: seq<char>): (b: bool)
    ensures b <==> forall i :: 0 <= i < |guess| ==> guess[i] in Colors
  {
    if |guess| == 0 then true
    else if guess[0] !in Colors then false
    else AllColors(guess[1..])
  }

  /** A guess is valid when it has exactly `CodeLength` symbols, each a colour. */
  function IsValidGuess(guess: seq<char>): (b: bool)
    ensures b <==> |guess| == CodeLength && forall i :: 0 <= i < |guess| ==> guess[i] in Colors
  {
    if |guess| != CodeLength then false
    else AllColors(guess)
  }

  // ---------------------------------------------------------------------------
  // Code generation
  // ---------------------------------------------------------------------------

  /** Builds a code of four symbols, each an arbitrary choice among `Colors`
      (the random choice is modelled as nondeterminism). */
  method GenerateCode() returns (code: seq<char>)
    ensures |code| == 4
    ensures forall i :: 0 <= i < |code| ==> code[i] in Colors
    ensures IsValidGuess(code)
  {
    code := [];
    var k := 0;
    while k < 4
      invariant 0 <= k <= 4
      invariant |code| == k
      invariant forall i :: 0 <= i < |code| ==> code[i] in Colors
    {
      assert Colors[0] in Colors;
      var c :| c in Colors;
      code := code + [c];
      k := k + 1;
    }
  }

  // ---------------------------------------------------------------------------
  // Scoring
  // ---------------------------------------------------------------------------

  /** Position `i` of the guess is a perfect match. */
  predicate IsPerfectAt(secret: seq<char>, guess: seq<char>, i: int)
    requires 0 <= i < |guess| <= |secret|
  {
    secret[i] == guess[i]
  }

  /** Position `i` of the guess is a colour match: not a perfect match, but its
      symbol occurs somewhere in the secret (with no per-colour bookkeeping). */
  predicate IsColorAt(secret: seq<char>, guess: seq<char>, i: int)
    requires 0 <= i < |guess| <= |secret|
  {
    secret[i] != guess[i] && guess[i] in secret
  }

  /** Reference definition: the positions that are perfect matches. */
  function PerfectPositions(secret: seq<char>, guess: seq<char>): set<int>
    requires |guess| <= |secret|
  {
    set i | 0 <= i < |guess| && IsPerfectAt(secret, guess, i)
  }

  /** Reference definition: the positions that are colour matches. */
  function ColorPositions(secret: seq<char>, guess: seq<char>): set<int>
    requires |guess| <= |secret|
  {
    set i | 0 <= i < |guess| && IsColorAt(secret, guess, i)
  }

  /** The scoring loop, one guess position at a time: a position adds to the
      perfect count, else possibly to the colour count, never to both. The
      secret is indexed at every guess position, hence the requires. */
  function Evaluate(secret: seq<char>, guess: seq<char>): (s: Score)
    requires |guess| <= |secret|
    ensures s.perfect + s.color <= |guess|
    decreases |guess|
  {
    if |guess| == 0 then Score(0, 0)
    else
      var i := |guess| - 1;
      var prev := Evaluate(secret, guess[..i]);
      if secret[i] == guess[i] then Score(prev.perfect + 1, prev.color)
      else if guess[i] in secret then Score(prev.perfect, prev.color + 1)
      else prev
  }

  /** The perfect positions of a one-longer prefix. */
  lemma PerfectPositionsStep(secret: seq<char>, guess: seq<char>)
    requires 0 < |guess| <= |secret|
    ensures PerfectPositions(secret, guess) ==
            PerfectPositions(secret, guess[..|guess| - 1]) +
            (if IsPerfectAt(secret, guess, |guess| - 1) then {|guess| - 1} else {})
  {
  }

  /** The colour positions of a one-longer prefix. */
  lemma ColorPositionsStep(secret: seq<char>, guess: seq<char>)
    requires 0 < |guess| <= |secret|
    ensures ColorPositions(secret, guess) ==
            ColorPositions(secret, guess[..|guess| - 1]) +
            (if IsColorAt(secret, guess, |guess| - 1) then {|guess| - 1} else {})
  {
  }

  /** The scoring loop counts exactly the perfect positions and exactly the
      colour positions. */
  lemma {:induction false} EvaluateCounts(secret: seq<char>, guess: seq<char>)
    requires |guess| <= |secret|
    ensures Evaluate(secret, guess).perfect == |PerfectPositions(secret, guess)|
    ensures Evaluate(secret, guess).color == |ColorPositions(secret, guess)|
    decreases |guess|
  {
    if |guess| > 0 {
      var i := |guess| - 1;
      EvaluateCounts(secret, guess[..i]);
      PerfectPositionsStep(secret, guess);
      ColorPositionsStep(secret, guess);
      assert i !in PerfectPositions(secret, guess[..i]);
      assert i !in ColorPositions(secret, guess[..i]);
    } else {
      assert PerfectPositions(secret, guess) == {};
      assert ColorPositions(secret, guess) == {};
    }
  }

  /** No position is both a perfect match and a colour match, so together
      they number at most the guess length. */
  lemma PositionsDisjoint(secret: seq<char>, guess: seq<char>)
    requires |guess| <= |secret|
    ensures PerfectPositions(secret, guess) !! ColorPositions(secret, guess)
    ensures |PerfectPositions(secret, guess)| + |ColorPositions(secret, guess)| <= |guess|
  {
    EvaluateCounts(secret, guess);
  }

  /** `evaluate_guess` on a game: the secret must hold at least as many
      symbols as the guess. The result counts the perfect positions and the
      colour positions; reading the game leaves it unchanged by construction. */
  function EvaluateGuess(game: Game, guess: seq<char>): (s: Score)
    requires |guess| <= |game.secretCode|
    ensures s.perfect == |PerfectPositions(game.secretCode, guess)|
    ensures s.color == |ColorPositions(game.secretCode, guess)|
    ensures s.perfect + s.color <= |guess|
  {
    EvaluateCounts(game.secretCode, guess);
    Evaluate(game.secretCode, guess)
  }

  /** Every position is a perfect match exactly when the perfect count equals
      the guess length. */
  lemma {:induction false} AllPerfectIff(secret: seq<char>, guess: seq<char>)
    requires |guess| <= |secret|
    ensures Evaluate(secret, guess).perfect == |guess| <==>
            forall i :: 0 <= i < |guess| ==> guess[i] == secret[i]
    decreases |guess|
  {
    if |guess| > 0 {
      var i := |guess| - 1;
      AllPerfectIff(secret, guess[..i]);
      if forall j :: 0 <= j < i ==> guess[..i][j] == secret[j] {
        assert forall j :: 0 <= j < i ==> guess[j] == secret[j] by {
          forall j | 0 <= j < i ensures guess[j] == secret[j] {
            assert guess[..i][j] == guess[j];
          }
        }
      }
      if forall j :: 0 <= j < |guess| ==> guess[j] == secret[j] {
        forall j | 0 <= j < i ensures guess[..i][j] == secret[j] {
          assert guess[..i][j] == guess[j];
        }
      }
    }
  }

  /** A guess of the secret's length scores all-perfect exactly when it is
      the secret. */
  lemma WinIffSecret(secret: seq<char>, guess: seq<char>)
    requires |guess| == |secret|
    ensures Evaluate(secret, guess).perfect == |guess| <==> guess == secret
  {
    AllPerfectIff(secret, guess);
  }

  /** Scoring the secret against itself gives all perfect and no colour
      matches. */
  lemma SelfScore(secret: seq<char>)
    ensures Evaluate(secret, secret) == Score(|secret|, 0)
  {
    WinIffSecret(secret, secret);
  }

  /** A fresh game has an empty secret, so no valid guess can be scored
      against it before the secret is set: the scoring loop would index past
      the end of the secret. */
  lemma FreshGameCannotScore(guess: seq<char>)
    ensures IsValidGuess(guess) ==> |guess| > |NewGame().secretCode|
  {
  }
}
